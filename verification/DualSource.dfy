/**
  Pairing the inference and display branches of one stream by timestamp
  (core/src/ingest/gst_dual_source.cpp). The two sinks are the frames still to come from each branch;
  whether a poll finds one ready is up to the environment.
*/
module DualSource {
  import opened Numbers
  import opened Types
  import BoundedQueues

  // ---------------------------------------------------------------- data

  datatype PendingFrame = PendingFrame(pts: int, cols: nat, rows: nat, image: int)
  {
    predicate Empty() { cols == 0 || rows == 0 }
  }

  datatype Packet = Packet(inf: PendingFrame, ui: PendingFrame, pts: int, frameId: int, scaleX: real, scaleY: real)

  datatype State = State(
    sinkInf: seq<PendingFrame>,
    sinkUi: seq<PendingFrame>,
    inf: seq<PendingFrame>,
    ui: seq<PendingFrame>,
    next: int)

  /** Whether each sink has a frame ready at a poll. */
  datatype Poll = Poll(inf: bool, ui: bool)

  /** What the clock grants a read: its polls, and whether the deadline passes right after one more attempt to match. */
  datatype Call = Call(polls: seq<Poll>, late: bool)

  function Without(q: seq<PendingFrame>, i: nat): (r: seq<PendingFrame>)
    requires i < |q|
    ensures |r| == |q| - 1
  {
    q[..i] + q[i + 1..]
  }

  /** The first position from j on with this timestamp, or the length. */
  function FindPts(q: seq<PendingFrame>, pts: int, j: nat): (k: nat)
    requires j <= |q|
    ensures j <= k <= |q|
    ensures k < |q| ==> q[k].pts == pts
    ensures forall i :: j <= i < k ==> q[i].pts != pts
    decreases |q| - j
  {
    if j == |q| || q[j].pts == pts then j else FindPts(q, pts, j + 1)
  }

  predicate Has(q: seq<PendingFrame>, pts: int)
  {
    FindPts(q, pts, 0) < |q|
  }

  /** The first pending inference frame from i on that has its timestamp in the other branch. */
  function FirstMatched(inf: seq<PendingFrame>, ui: seq<PendingFrame>, i: nat): (k: nat)
    requires i <= |inf|
    ensures i <= k <= |inf|
    ensures k < |inf| ==> inf[k].pts > 0 && Has(ui, inf[k].pts)
    ensures forall m :: i <= m < k ==> inf[m].pts <= 0 || !Has(ui, inf[m].pts)
    decreases |inf| - i
  {
    if i == |inf| || (inf[i].pts > 0 && Has(ui, inf[i].pts)) then i else FirstMatched(inf, ui, i + 1)
  }

  // ---------------------------------------------------------------- the operations as functions

  function Scale(ui: nat, inf: nat): real { ui as real / MaxInt(1, inf) as real }

  /** The pair is emitted with the next frame id; one with an empty image is dropped. */
  function Emitted(s: State, inf: PendingFrame, ui: PendingFrame): (State, Option<Packet>)
  {
    if inf.Empty() || ui.Empty() then (s, None)
    else (s.(next := s.next + 1),
          Some(Packet(inf, ui, if inf.pts > 0 then inf.pts else ui.pts, s.next, Scale(ui.cols, inf.cols), Scale(ui.rows, inf.rows))))
  }

  predicate Untimed(q: seq<PendingFrame>) { q != [] && q[0].pts <= 0 }

  function TryMatched(s: State): (State, Option<Packet>)
  {
    var i := FirstMatched(s.inf, s.ui, 0);
    if i < |s.inf| then
      var j := FindPts(s.ui, s.inf[i].pts, 0);
      Emitted(s.(inf := Without(s.inf, i), ui := Without(s.ui, j)), s.inf[i], s.ui[j])
    else if Untimed(s.inf) && Untimed(s.ui) then
      Emitted(s.(inf := s.inf[1..], ui := s.ui[1..]), s.inf[0], s.ui[0])
    else (s, None)
  }

  function Newest(q: seq<PendingFrame>, cap: nat): seq<PendingFrame>
  {
    if |q| > cap then q[|q| - cap..] else q
  }

  lemma NewestOfTail(q: seq<PendingFrame>, cap: nat)
    ensures |q| > cap ==> Newest(q[1..], cap) == Newest(q, cap)
    ensures |q| <= cap ==> Newest(q, cap) == q
  {
  }

  datatype Choice = Stop | DropInf | DropUi

  function HeadChoice(inf: seq<PendingFrame>, ui: seq<PendingFrame>): Choice
  {
    if inf == [] || ui == [] || inf[0].pts <= 0 || ui[0].pts <= 0 || inf[0].pts == ui[0].pts then Stop
    else
      var infHasMatch, uiHasMatch := Has(ui, inf[0].pts), Has(inf, ui[0].pts);
      if !infHasMatch && (uiHasMatch || inf[0].pts < ui[0].pts) then DropInf
      else if !uiHasMatch && (infHasMatch || ui[0].pts < inf[0].pts) then DropUi
      else Stop
  }

  function Pruned(s: State): State
    decreases |s.inf| + |s.ui|
  {
    match HeadChoice(s.inf, s.ui)
    case DropInf => Pruned(s.(inf := s.inf[1..]))
    case DropUi => Pruned(s.(ui := s.ui[1..]))
    case Stop => s
  }

  function Trimmed(s: State, cap: nat): State
  {
    Pruned(s.(inf := Newest(s.inf, cap), ui := Newest(s.ui, cap)))
  }

  function PulledInf(s: State, ready: bool): State
  {
    if ready && s.sinkInf != [] then s.(inf := s.inf + [s.sinkInf[0]], sinkInf := s.sinkInf[1..]) else s
  }

  function PulledUi(s: State, ready: bool): State
  {
    if ready && s.sinkUi != [] then s.(ui := s.ui + [s.sinkUi[0]], sinkUi := s.sinkUi[1..]) else s
  }

  /** The rest of a read from the k-th poll on. */
  function ReadFrom(s: State, cap: nat, call: Call, k: nat): (State, Option<Packet>)
    requires k <= |call.polls|
    decreases |call.polls| - k
  {
    if k == |call.polls| && !call.late then TryMatched(Trimmed(s, cap))
    else
      var (s1, r1) := TryMatched(s);
      if r1.Some? then (s1, r1)
      else if k == |call.polls| then TryMatched(Trimmed(s1, cap))
      else
        var (s2, r2) := TryMatched(PulledInf(s1, call.polls[k].inf));
        if r2.Some? then (s2, r2) else ReadFrom(Trimmed(PulledUi(s2, call.polls[k].ui), cap), cap, call, k + 1)
  }

  // ---------------------------------------------------------------- the source

  class GstDualSource {
    var sinkInf: seq<PendingFrame>
    var sinkUi: seq<PendingFrame>
    var pendingInf: seq<PendingFrame>
    var pendingUi: seq<PendingFrame>
    var nextFrameId: int
    const pendingCap: nat

    constructor (sinkInf: seq<PendingFrame>, sinkUi: seq<PendingFrame>)
      ensures Now() == State(sinkInf, sinkUi, [], [], 0) && pendingCap == 8
    {
      this.sinkInf, this.sinkUi := sinkInf, sinkUi;
      pendingInf, pendingUi, nextFrameId, pendingCap := [], [], 0, 8;
    }

    ghost function Now(): State
      reads this
    {
      State(sinkInf, sinkUi, pendingInf, pendingUi, nextFrameId)
    }

    method EmitPair(inf: PendingFrame, ui: PendingFrame) returns (out: Option<Packet>)
      modifies this`nextFrameId
      ensures (Now(), out) == Emitted(old(Now()), inf, ui)
    {
      if inf.Empty() || ui.Empty() {
        return None;
      }
      out := Some(Packet(inf, ui, if inf.pts > 0 then inf.pts else ui.pts, nextFrameId,
                         Scale(ui.cols, inf.cols), Scale(ui.rows, inf.rows)));
      nextFrameId := nextFrameId + 1;
    }

    method TryMatch() returns (out: Option<Packet>)
      modifies this
      ensures (Now(), out) == TryMatched(old(Now()))
    {
      var i := 0;
      while i < |pendingInf|
        invariant i <= |pendingInf| && Now() == old(Now())
        invariant FirstMatched(pendingInf, pendingUi, 0) == FirstMatched(pendingInf, pendingUi, i)
      {
        if pendingInf[i].pts > 0 {
          var j := 0;
          while j < |pendingUi| && pendingUi[j].pts != pendingInf[i].pts
            invariant j <= |pendingUi|
            invariant FindPts(pendingUi, pendingInf[i].pts, 0) == FindPts(pendingUi, pendingInf[i].pts, j)
          {
            j := j + 1;
          }
          if j < |pendingUi| {
            var inf, ui := pendingInf[i], pendingUi[j];
            pendingInf, pendingUi := Without(pendingInf, i), Without(pendingUi, j);
            out := EmitPair(inf, ui);
            return;
          }
        }
        i := i + 1;
      }
      if pendingInf != [] && pendingUi != [] && pendingInf[0].pts <= 0 && pendingUi[0].pts <= 0 {
        var inf, ui := pendingInf[0], pendingUi[0];
        pendingInf, pendingUi := pendingInf[1..], pendingUi[1..];
        out := EmitPair(inf, ui);
        return;
      }
      return None;
    }

    method TrimPending()
      modifies this
      ensures Now() == Trimmed(old(Now()), pendingCap)
    {
      hide Newest, Has;
      while |pendingInf| > pendingCap
        invariant Now() == old(Now()).(inf := pendingInf)
        invariant Newest(pendingInf, pendingCap) == Newest(old(pendingInf), pendingCap)
      {
        NewestOfTail(pendingInf, pendingCap);
        pendingInf := pendingInf[1..];
      }
      NewestOfTail(pendingInf, pendingCap);
      while |pendingUi| > pendingCap
        invariant Now() == old(Now()).(inf := Newest(old(pendingInf), pendingCap), ui := pendingUi)
        invariant Newest(pendingUi, pendingCap) == Newest(old(pendingUi), pendingCap)
      {
        NewestOfTail(pendingUi, pendingCap);
        pendingUi := pendingUi[1..];
      }
      NewestOfTail(pendingUi, pendingCap);
      while pendingInf != [] && pendingUi != []
        invariant Pruned(Now()) == Trimmed(old(Now()), pendingCap)
        decreases |pendingInf| + |pendingUi|
      {
        var infPts, uiPts := pendingInf[0].pts, pendingUi[0].pts;
        if infPts <= 0 || uiPts <= 0 || infPts == uiPts {
          break;
        }
        var infHasMatch, uiHasMatch := Has(pendingUi, infPts), Has(pendingInf, uiPts);
        if !infHasMatch && (uiHasMatch || infPts < uiPts) {
          pendingInf := pendingInf[1..];
          continue;
        }
        if !uiHasMatch && (infHasMatch || uiPts < infPts) {
          pendingUi := pendingUi[1..];
          continue;
        }
        break;
      }
    }

    method Read(call: Call) returns (out: Option<Packet>)
      modifies this
      ensures (Now(), out) == ReadFrom(old(Now()), pendingCap, call, 0)
    {
      hide TryMatched, Trimmed;
      var polls := call.polls;
      for k := 0 to |polls|
        invariant ReadFrom(old(Now()), pendingCap, call, 0) == ReadFrom(Now(), pendingCap, call, k)
      {
        out := TryMatch();
        if out.Some? {
          return;
        }
        if polls[k].inf && sinkInf != [] {
          pendingInf, sinkInf := pendingInf + [sinkInf[0]], sinkInf[1..];
        }
        out := TryMatch();
        if out.Some? {
          return;
        }
        if polls[k].ui && sinkUi != [] {
          pendingUi, sinkUi := pendingUi + [sinkUi[0]], sinkUi[1..];
        }
        TrimPending();
      }
      if call.late {
        out := TryMatch();
        if out.Some? {
          return;
        }
      }
      TrimPending();
      out := TryMatch();
    }
  }

  // ---------------------------------------------------------------- the merge join it implements

  /** Strictly increasing positive timestamps, with images. */
  ghost predicate Ordered(q: seq<PendingFrame>)
  {
    && (forall i :: 0 <= i < |q| ==> q[i].pts > 0 && !q[i].Empty())
    && (forall i, j :: 0 <= i < j < |q| ==> q[i].pts < q[j].pts)
  }

  type Pair = (PendingFrame, PendingFrame)

  /** The pairs of equal timestamp of two increasing sequences. */
  function Joint(a: seq<PendingFrame>, b: seq<PendingFrame>): seq<Pair>
    decreases |a| + |b|
  {
    if a == [] || b == [] then []
    else if a[0].pts < b[0].pts then Joint(a[1..], b)
    else if b[0].pts < a[0].pts then Joint(a, b[1..])
    else [(a[0], b[0])] + Joint(a[1..], b[1..])
  }

  function Times(q: seq<PendingFrame>): set<int>
  {
    set x | x in q :: x.pts
  }

  function PairTimes(pairs: seq<Pair>): set<int>
  {
    set x | x in pairs :: x.0.pts
  }

  ghost predicate OrderedPairs(pairs: seq<Pair>)
  {
    && (forall k :: 0 <= k < |pairs| ==> pairs[k].0.pts == pairs[k].1.pts)
    && (forall i, j :: 0 <= i < j < |pairs| ==> pairs[i].0.pts < pairs[j].0.pts)
  }

  lemma TimesSplit(q: seq<PendingFrame>)
    requires q != []
    ensures Times(q) == {q[0].pts} + Times(q[1..])
  {
    assert q == [q[0]] + q[1..];
  }

  lemma TailOrdered(q: seq<PendingFrame>)
    requires q != [] && Ordered(q)
    ensures Ordered(q[1..])
    ensures forall t :: t in Times(q[1..]) ==> t > q[0].pts
  {
  }

  lemma PairTimesSplit(pairs: seq<Pair>, x: Pair)
    ensures PairTimes([x] + pairs) == {x.0.pts} + PairTimes(pairs)
  {
    assert x in [x] + pairs;
  }

  lemma OrderedPairsGrow(pairs: seq<Pair>, x: Pair)
    requires OrderedPairs(pairs) && x.0.pts == x.1.pts && forall t :: t in PairTimes(pairs) ==> x.0.pts < t
    ensures OrderedPairs([x] + pairs)
  {
    forall k | 0 <= k < |pairs|
      ensures x.0.pts < pairs[k].0.pts
    {
      assert pairs[k].0.pts in PairTimes(pairs);
    }
  }

  /** The join has exactly the common timestamps, in increasing order. */
  lemma {:induction false} JointIsTheCommonTimestamps(a: seq<PendingFrame>, b: seq<PendingFrame>)
    requires Ordered(a) && Ordered(b)
    ensures OrderedPairs(Joint(a, b))
    ensures PairTimes(Joint(a, b)) == Times(a) * Times(b)
    decreases |a| + |b|
  {
    if a != [] && b != [] {
      TailOrdered(a);
      TailOrdered(b);
      TimesSplit(a);
      TimesSplit(b);
      hide Ordered, OrderedPairs, Times, PairTimes;
      if a[0].pts < b[0].pts {
        JointIsTheCommonTimestamps(a[1..], b);
      } else if b[0].pts < a[0].pts {
        JointIsTheCommonTimestamps(a, b[1..]);
      } else {
        JointIsTheCommonTimestamps(a[1..], b[1..]);
        PairTimesSplit(Joint(a[1..], b[1..]), (a[0], b[0]));
        OrderedPairsGrow(Joint(a[1..], b[1..]), (a[0], b[0]));
      }
    }
  }

  // ---------------------------------------------------------------- what cannot match can go

  lemma {:induction false} DropHeadInf(a: seq<PendingFrame>, b: seq<PendingFrame>)
    requires Ordered(a) && Ordered(b) && a != [] && a[0].pts !in Times(b)
    ensures Joint(a, b) == Joint(a[1..], b)
    decreases |b|
  {
    if b != [] && b[0].pts <= a[0].pts {
      assert b[0] in b;
      TailOrdered(b);
      TimesSplit(b);
      DropHeadInf(a, b[1..]);
    }
  }

  lemma {:induction false} DropHeadUi(a: seq<PendingFrame>, b: seq<PendingFrame>)
    requires Ordered(a) && Ordered(b) && b != [] && b[0].pts !in Times(a)
    ensures Joint(a, b) == Joint(a, b[1..])
    decreases |a|
  {
    if a != [] && a[0].pts <= b[0].pts {
      assert a[0] in a;
      TailOrdered(a);
      TimesSplit(a);
      DropHeadUi(a[1..], b);
    }
  }

  lemma {:induction false} DropPrefixInf(a: seq<PendingFrame>, b: seq<PendingFrame>, i: nat)
    requires Ordered(a) && Ordered(b) && i <= |a|
    requires forall m :: 0 <= m < i ==> a[m].pts !in Times(b)
    ensures Joint(a, b) == Joint(a[i..], b)
    decreases i
  {
    if i == 0 {
      assert a[0..] == a;
    } else {
      DropPrefixInf(a, b, i - 1);
      var rest := a[i - 1..];
      assert rest[1..] == a[i..] && rest[0] == a[i - 1];
      hide Joint, Times;
      DropHeadInf(rest, b);
    }
  }

  lemma {:induction false} DropPrefixUi(a: seq<PendingFrame>, b: seq<PendingFrame>, j: nat)
    requires Ordered(a) && Ordered(b) && j <= |b|
    requires forall m :: 0 <= m < j ==> b[m].pts !in Times(a)
    ensures Joint(a, b) == Joint(a, b[j..])
    decreases j
  {
    if j == 0 {
      assert b[0..] == b;
    } else {
      DropPrefixUi(a, b, j - 1);
      var rest := b[j - 1..];
      assert rest[1..] == b[j..] && rest[0] == b[j - 1];
      hide Joint, Times;
      DropHeadUi(a, rest);
    }
  }

  ghost predicate Beyond(times: set<int>, t: int)
  {
    forall x :: x in times ==> x >= t
  }

  lemma WithoutOrdered(q: seq<PendingFrame>, i: nat)
    requires Ordered(q) && i < |q|
    ensures Ordered(Without(q, i)) && Times(Without(q, i)) <= Times(q)
    ensures Without(q, i)[i..] == q[i + 1..] && forall m :: 0 <= m < i ==> Without(q, i)[m] == q[m]
    ensures Ordered(q[i..]) && Ordered(q[i + 1..])
    ensures Beyond(Times(q[i..]), q[i].pts)
    ensures Beyond(Times(q[i + 1..]), q[i].pts)
  {
    assert Times(Without(q, i)) <= Times(q) by {
      hide Ordered;
    }
    RestOrdered(q, i, i);
    RestOrdered(q, i, i + 1);
    hide Times, Beyond;
  }

  lemma RestOrdered(q: seq<PendingFrame>, i: nat, from: nat)
    requires Ordered(q) && i < |q| && i <= from <= |q|
    ensures Ordered(q[from..]) && Beyond(Times(q[from..]), q[i].pts)
  {
  }

  lemma JointFromMatch(a: seq<PendingFrame>, b: seq<PendingFrame>, i: nat, j: nat)
    requires i < |a| && j < |b| && a[i].pts == b[j].pts
    ensures Joint(a[i..], b[j..]) == [(a[i], b[j])] + Joint(a[i + 1..], b[j + 1..])
  {
    assert a[i..][1..] == a[i + 1..] && b[j..][1..] == b[j + 1..];
  }

  /** Taking out the first pair leaves the rest of the join. */
  lemma TakeFirstPair(a: seq<PendingFrame>, b: seq<PendingFrame>, i: nat, j: nat)
    requires Ordered(a) && Ordered(b) && i < |a| && j < |b| && a[i].pts == b[j].pts
    requires forall m :: 0 <= m < i ==> a[m].pts !in Times(b)
    ensures Ordered(Without(a, i)) && Ordered(Without(b, j))
    ensures Joint(a, b) == [(a[i], b[j])] + Joint(Without(a, i), Without(b, j))
  {
    hide Joint, Times, Ordered, Beyond, Without;
    WithoutOrdered(a, i);
    WithoutOrdered(b, j);
    JointFromMatch(a, b, i, j);
    EarlierMissing(b, j, a[i..]);
    SkipBoth(a, b, i, j);
    EarlierMissing(b, j, a[i + 1..]);
    SkipBoth(Without(a, i), Without(b, j), i, j);
  }

  lemma EarlierMissing(q: seq<PendingFrame>, j: nat, later: seq<PendingFrame>)
    requires Ordered(q) && j < |q| && Beyond(Times(later), q[j].pts)
    ensures forall m :: 0 <= m < j ==> q[m].pts !in Times(later)
  {
    hide Times;
  }

  /** Frames before the pair that are missing in the other branch can go. */
  lemma SkipBoth(a: seq<PendingFrame>, b: seq<PendingFrame>, i: nat, j: nat)
    requires i <= |a| && j <= |b| && Ordered(a) && Ordered(b) && Ordered(a[i..])
    requires forall m :: 0 <= m < i ==> a[m].pts !in Times(b)
    requires forall m :: 0 <= m < j ==> b[m].pts !in Times(a[i..])
    ensures Joint(a, b) == Joint(a[i..], b[j..])
  {
    hide Joint, Times, Ordered;
    DropPrefixInf(a, b, i);
    DropPrefixUi(a[i..], b, j);
  }

  // ---------------------------------------------------------------- what the cap takes away

  /** A pair of the oldest frame is the first of the join, and the rest is the join without that frame. */
  lemma OldestPairInf(a: seq<PendingFrame>, b: seq<PendingFrame>, n: nat)
    requires Ordered(a) && Ordered(b) && a != [] && n < |b| && b[n].pts == a[0].pts
    ensures Joint(a, b) == [(a[0], b[n])] + Joint(a[1..], b)
  {
    hide *;
    WithoutOrdered(a, 0);
    WithoutOrdered(b, n);
    assert a[0..] == a;
    EarlierMissing(b, n, a);
    DropPrefixUi(a, b, n);
    JointFromMatch(a, b, 0, n);
    UpToMissing(a, b, n);
    DropPrefixUi(a[1..], b, n + 1);
  }

  lemma OldestPairUi(a: seq<PendingFrame>, b: seq<PendingFrame>, n: nat)
    requires Ordered(a) && Ordered(b) && b != [] && n < |a| && a[n].pts == b[0].pts
    ensures Joint(a, b) == [(a[n], b[0])] + Joint(a, b[1..])
  {
    hide *;
    WithoutOrdered(b, 0);
    WithoutOrdered(a, n);
    assert b[0..] == b;
    EarlierMissing(a, n, b);
    DropPrefixInf(a, b, n);
    JointFromMatch(a, b, n, 0);
    UpToMissing(b, a, n);
    DropPrefixInf(a, b[1..], n + 1);
  }

  /** Dropping the oldest frame drops the first pair of the join if the other branch has its timestamp, and no pair otherwise. */
  lemma LoseHeadInf(a: seq<PendingFrame>, b: seq<PendingFrame>)
    requires Ordered(a) && Ordered(b) && a != []
    ensures a[0].pts in Times(b) ==> Joint(a, b) != []
    ensures Joint(a[1..], b) == if a[0].pts in Times(b) then Joint(a, b)[1..] else Joint(a, b)
  {
    hide Joint, Ordered;
    if a[0].pts in Times(b) {
      var n :| 0 <= n < |b| && b[n].pts == a[0].pts;
      OldestPairInf(a, b, n);
    } else {
      DropHeadInf(a, b);
    }
    hide Times;
  }

  lemma LoseHeadUi(a: seq<PendingFrame>, b: seq<PendingFrame>)
    requires Ordered(a) && Ordered(b) && b != []
    ensures b[0].pts in Times(a) ==> Joint(a, b) != []
    ensures Joint(a, b[1..]) == if b[0].pts in Times(a) then Joint(a, b)[1..] else Joint(a, b)
  {
    hide Joint, Ordered;
    if b[0].pts in Times(a) {
      var n :| 0 <= n < |a| && a[n].pts == b[0].pts;
      OldestPairUi(a, b, n);
    } else {
      DropHeadUi(a, b);
    }
    hide Times;
  }

  /** Nothing up to the partner of the oldest frame has a partner after it. */
  lemma UpToMissing(a: seq<PendingFrame>, b: seq<PendingFrame>, n: nat)
    requires Ordered(a) && Ordered(b) && a != [] && n < |b| && b[n].pts == a[0].pts
    ensures forall m :: 0 <= m < n + 1 ==> b[m].pts !in Times(a[1..])
  {
    TailOrdered(a);
  }

  /** None of the first i frames has its timestamp in the other branch. */
  ghost predicate Useless(q: seq<PendingFrame>, i: int, times: set<int>)
  {
    forall m :: 0 <= m < i && m < |q| ==> q[m].pts !in times
  }

  lemma UselessStep(q: seq<PendingFrame>, i: nat, times: set<int>)
    requires 0 < i <= |q|
    ensures Useless(q, i, times) <==> Useless(q, i - 1, times) && q[i - 1].pts !in times
  {
  }

  /** Dropping the oldest frames drops the first pairs of the join; none exactly if they are useless. */
  lemma {:induction false} LoseInf(a: seq<PendingFrame>, b: seq<PendingFrame>, i: nat) returns (j: nat)
    requires Ordered(a) && Ordered(b) && i <= |a|
    ensures Ordered(a[i..]) && j <= |Joint(a, b)| && Joint(a[i..], b) == Joint(a, b)[j..]
    ensures j == 0 <==> Useless(a, i, Times(b))
  {
    hide Joint, Times, Ordered, Useless;
    if i == 0 {
      j := 0;
      assert a[0..] == a && Joint(a, b)[0..] == Joint(a, b);
      NoneUseless(a, Times(b));
    } else {
      j := LoseInf(a, b, i - 1);
      var rest := a[i - 1..];
      assert rest[1..] == a[i..] && rest[0] == a[i - 1];
      LoseHeadInf(rest, b);
      TailOrdered(rest);
      UselessStep(a, i, Times(b));
      if rest[0].pts in Times(b) {
        assert Joint(a, b)[j..][1..] == Joint(a, b)[j + 1..];
        j := j + 1;
      }
    }
  }

  lemma {:induction false} LoseUi(a: seq<PendingFrame>, b: seq<PendingFrame>, i: nat) returns (j: nat)
    requires Ordered(a) && Ordered(b) && i <= |b|
    ensures Ordered(b[i..]) && j <= |Joint(a, b)| && Joint(a, b[i..]) == Joint(a, b)[j..]
    ensures j == 0 <==> Useless(b, i, Times(a))
  {
    hide Joint, Times, Ordered, Useless;
    if i == 0 {
      j := 0;
      assert b[0..] == b && Joint(a, b)[0..] == Joint(a, b);
      NoneUseless(b, Times(a));
    } else {
      j := LoseUi(a, b, i - 1);
      var rest := b[i - 1..];
      assert rest[1..] == b[i..] && rest[0] == b[i - 1];
      LoseHeadUi(a, rest);
      TailOrdered(rest);
      UselessStep(b, i, Times(a));
      if rest[0].pts in Times(a) {
        assert Joint(a, b)[j..][1..] == Joint(a, b)[j + 1..];
        j := j + 1;
      }
    }
  }

  lemma NoneUseless(q: seq<PendingFrame>, times: set<int>)
    ensures Useless(q, 0, times)
  {
  }

  // ---------------------------------------------------------------- every operation keeps the join

  function AllInf(s: State): seq<PendingFrame> { s.inf + s.sinkInf }

  function AllUi(s: State): seq<PendingFrame> { s.ui + s.sinkUi }

  ghost predicate InOrder(s: State)
  {
    Ordered(AllInf(s)) && Ordered(AllUi(s))
  }

  /** The pairs still to be emitted. */
  function Owed(s: State): seq<Pair> { Joint(AllInf(s), AllUi(s)) }

  function PairsOf(r: Option<Packet>): seq<Pair>
  {
    if r.None? then [] else [(r.value.inf, r.value.ui)]
  }

  /** The scales take the inference image to the display image. */
  predicate Scaled(p: Packet)
  {
    p.scaleX * p.inf.cols as real == p.ui.cols as real && p.scaleY * p.inf.rows as real == p.ui.rows as real
  }

  lemma ScaleBack(ui: nat, inf: nat)
    requires inf > 0
    ensures Scale(ui, inf) * inf as real == ui as real
  {
  }

  lemma EmittedScaled(s: State, inf: PendingFrame, ui: PendingFrame)
    requires !inf.Empty() && !ui.Empty()
    ensures forall pts, id :: Scaled(Packet(inf, ui, pts, id, Scale(ui.cols, inf.cols), Scale(ui.rows, inf.rows)))
  {
    ScaleBack(ui.cols, inf.cols);
    ScaleBack(ui.rows, inf.rows);
    hide Scale;
  }

  /** Whatever was emitted comes off the front of what was owed, under the next id and its own timestamp. */
  ghost predicate Conserves(s: State, r: State, out: Option<Packet>)
  {
    && InOrder(r)
    && Owed(s) == PairsOf(out) + Owed(r)
    && r.next == s.next + |PairsOf(out)|
    && (out.Some? ==> out.value.frameId == s.next && out.value.pts == out.value.inf.pts == out.value.ui.pts && Scaled(out.value))
  }

  lemma FirstPendingPair(s: State)
    requires InOrder(s)
    ensures var i := FirstMatched(s.inf, s.ui, 0);
      i < |s.inf| ==>
        && FindPts(s.ui, s.inf[i].pts, 0) < |s.ui|
        && AllUi(s)[FindPts(s.ui, s.inf[i].pts, 0)].pts == AllInf(s)[i].pts
        && forall m :: 0 <= m < i ==> AllInf(s)[m].pts !in Times(AllUi(s))
  {
    var i := FirstMatched(s.inf, s.ui, 0);
    if i < |s.inf| {
      var j := FindPts(s.ui, s.inf[i].pts, 0);
      forall m | 0 <= m < i
        ensures AllInf(s)[m].pts !in Times(AllUi(s))
      {
        assert AllInf(s)[m] == s.inf[m] && AllInf(s)[i] == s.inf[i] && AllUi(s)[j] == s.ui[j];
        forall x | x in AllUi(s)
          ensures x.pts != s.inf[m].pts
        {
          var k :| 0 <= k < |AllUi(s)| && AllUi(s)[k] == x;
          assert k < |s.ui| ==> AllUi(s)[k] == s.ui[k];
        }
      }
    }
  }

  lemma WithoutPrefix(q: seq<PendingFrame>, rest: seq<PendingFrame>, i: nat)
    requires i < |q|
    ensures Without(q + rest, i) == Without(q, i) + rest
  {
  }

  lemma PendingOrdered(q: seq<PendingFrame>, rest: seq<PendingFrame>)
    requires Ordered(q + rest)
    ensures Ordered(q)
  {
    assert forall i :: 0 <= i < |q| ==> (q + rest)[i] == q[i];
  }

  lemma MatchConserves(s: State)
    requires InOrder(s)
    ensures var (r, out) := TryMatched(s); Conserves(s, r, out)
    ensures TryMatched(s).1.None? ==> TryMatched(s).0 == s && Joint(s.inf, s.ui) == []
  {
    var i := FirstMatched(s.inf, s.ui, 0);
    FirstPendingPair(s);
    if i < |s.inf| {
      var j := FindPts(s.ui, s.inf[i].pts, 0);
      assert AllInf(s)[i] == s.inf[i] && AllUi(s)[j] == s.ui[j];
      TakeFirstPair(AllInf(s), AllUi(s), i, j);
      WithoutPrefix(s.inf, s.sinkInf, i);
      WithoutPrefix(s.ui, s.sinkUi, j);
      hide Joint, Times, Without, FirstMatched, FindPts;
      assert !s.inf[i].Empty() && !s.ui[j].Empty() && s.inf[i].pts > 0;
      hide Ordered, Scale, Scaled;
      EmittedScaled(s, s.inf[i], s.ui[j]);
    } else {
      PendingOrdered(s.inf, s.sinkInf);
      PendingOrdered(s.ui, s.sinkUi);
      DropPrefixInf(s.inf, s.ui, |s.inf|) by {
        forall m | 0 <= m < |s.inf|
          ensures s.inf[m].pts !in Times(s.ui)
        {
        }
      }
      assert Joint(s.inf, s.ui) == [];
      assert !(Untimed(s.inf) && Untimed(s.ui));
    }
  }

  /** A pruned head is older than everything still pending or to come in the other branch. */
  lemma PrunedHeadIsUseless(s: State)
    requires InOrder(s)
    ensures HeadChoice(s.inf, s.ui) == DropInf ==> s.inf[0].pts !in Times(AllUi(s))
    ensures HeadChoice(s.inf, s.ui) == DropUi ==> s.ui[0].pts !in Times(AllInf(s))
  {
    if HeadChoice(s.inf, s.ui) != Stop {
      assert AllInf(s)[0] == s.inf[0] && AllUi(s)[0] == s.ui[0];
      HeadsApart(s);
    }
  }

  lemma HeadsApart(s: State)
    requires InOrder(s) && s.inf != [] && s.ui != []
    ensures HeadChoice(s.inf, s.ui) == DropInf ==> s.inf[0].pts < s.ui[0].pts
    ensures HeadChoice(s.inf, s.ui) == DropUi ==> s.ui[0].pts < s.inf[0].pts
  {
    PendingOrdered(s.inf, s.sinkInf);
    PendingOrdered(s.ui, s.sinkUi);
    var i, j := FindPts(s.inf, s.ui[0].pts, 0), FindPts(s.ui, s.inf[0].pts, 0);
    assert i < |s.inf| ==> s.inf[0].pts <= s.inf[i].pts;
    assert j < |s.ui| ==> s.ui[0].pts <= s.ui[j].pts;
  }

  lemma DropInfConserves(s: State)
    requires InOrder(s) && s.inf != [] && s.inf[0].pts !in Times(AllUi(s))
    ensures Conserves(s, s.(inf := s.inf[1..]), None)
  {
    var r := s.(inf := s.inf[1..]);
    assert AllInf(s)[1..] == AllInf(r) && AllInf(s)[0] == s.inf[0];
    TailOrdered(AllInf(s));
    hide Joint, Times, Ordered;
    DropHeadInf(AllInf(s), AllUi(s));
  }

  lemma DropUiConserves(s: State)
    requires InOrder(s) && s.ui != [] && s.ui[0].pts !in Times(AllInf(s))
    ensures Conserves(s, s.(ui := s.ui[1..]), None)
  {
    var r := s.(ui := s.ui[1..]);
    assert AllUi(s)[1..] == AllUi(r) && AllUi(s)[0] == s.ui[0];
    TailOrdered(AllUi(s));
    hide Joint, Times, Ordered;
    DropHeadUi(AllInf(s), AllUi(s));
  }

  lemma {:induction false} PruneConserves(s: State)
    requires InOrder(s)
    ensures Conserves(s, Pruned(s), None)
    decreases |s.inf| + |s.ui|
  {
    hide Owed, InOrder, Has, Times;
    PrunedHeadIsUseless(s);
    match HeadChoice(s.inf, s.ui)
    case DropInf =>
      DropInfConserves(s);
      PruneConserves(s.(inf := s.inf[1..]));
    case DropUi =>
      DropUiConserves(s);
      PruneConserves(s.(ui := s.ui[1..]));
    case Stop =>
  }

  /** Whatever the cap takes away has no partner pending or to come in the other branch. */
  ghost predicate Harmless(s: State, cap: nat)
  {
    Useless(s.inf, |s.inf| - cap, Times(AllUi(s))) && Useless(s.ui, |s.ui| - cap, Times(AllInf(s)))
  }

  /** Every trim of the read is harmless. */
  ghost predicate ReadKeeps(s: State, cap: nat, call: Call, k: nat)
    requires k <= |call.polls|
    decreases |call.polls| - k
  {
    if k == |call.polls| && !call.late then Harmless(s, cap)
    else
      var (s1, r1) := TryMatched(s);
      if r1.Some? then true
      else if k == |call.polls| then Harmless(s1, cap)
      else
        var (s2, r2) := TryMatched(PulledInf(s1, call.polls[k].inf));
        r2.Some? ||
        var s3 := PulledUi(s2, call.polls[k].ui);
        Harmless(s3, cap) && ReadKeeps(Trimmed(s3, cap), cap, call, k + 1)
  }

  /** j of the pairs owed are given up, and whatever was emitted comes off the front of the others, under the next id and its own timestamp. */
  ghost predicate Loses(s: State, r: State, out: Option<Packet>, j: nat)
  {
    && InOrder(r)
    && j <= |Owed(s)|
    && Owed(s)[j..] == PairsOf(out) + Owed(r)
    && r.next == s.next + |PairsOf(out)|
    && (out.Some? ==> out.value.frameId == s.next && out.value.pts == out.value.inf.pts == out.value.ui.pts && Scaled(out.value))
  }

  lemma ConservingLosesNone(s: State, r: State, out: Option<Packet>)
    requires Conserves(s, r, out)
    ensures Loses(s, r, out, 0)
  {
    hide Owed, InOrder;
    assert Owed(s)[0..] == Owed(s);
  }

  lemma LossesAdd(s: State, between: State, r: State, out: Option<Packet>, i: nat, j: nat)
    requires Loses(s, between, None, i) && Loses(between, r, out, j)
    ensures Loses(s, r, out, i + j)
  {
    hide Owed, InOrder;
    assert Owed(s)[i..] == Owed(between);
    assert Owed(s)[i..][j..] == Owed(s)[i + j..];
  }

  lemma UselessPending(q: seq<PendingFrame>, rest: seq<PendingFrame>, i: int, times: set<int>)
    requires i <= |q|
    ensures Useless(q, i, times) <==> Useless(q + rest, i, times)
  {
    assert forall m :: 0 <= m < |q| ==> (q + rest)[m] == q[m];
  }

  /** Without the useless frames of one branch, the same frames of the other are useless. */
  lemma UselessAfter(a: seq<PendingFrame>, b: seq<PendingFrame>, i: nat, k: nat)
    requires i <= |a| && k <= |b| && Useless(a, i, Times(b))
    ensures Useless(b, k, Times(a[i..])) <==> Useless(b, k, Times(a))
  {
    forall m | 0 <= m < k && b[m].pts in Times(a)
      ensures b[m].pts in Times(a[i..])
    {
      var n :| 0 <= n < |a| && a[n].pts == b[m].pts;
      assert b[m].pts in Times(b) && n >= i;
      assert a[i..][n - i] == a[n];
    }
    assert Times(a[i..]) <= Times(a);
  }

  lemma NewestIsTail(q: seq<PendingFrame>, rest: seq<PendingFrame>, cap: nat)
    ensures Newest(q, cap) + rest == (q + rest)[MaxInt(0, |q| - cap)..]
  {
  }

  function Capped(s: State, cap: nat): State
  {
    s.(inf := Newest(s.inf, cap), ui := Newest(s.ui, cap))
  }

  lemma CapLoses(s: State, cap: nat) returns (j: nat)
    requires InOrder(s)
    ensures Loses(s, Capped(s, cap), None, j)
    ensures j == 0 <==> Harmless(s, cap)
  {
    var i, k := MaxInt(0, |s.inf| - cap), MaxInt(0, |s.ui| - cap);
    var a, b := AllInf(s), AllUi(s);
    hide Joint, Times, Ordered;
    NewestIsTail(s.inf, s.sinkInf, cap);
    NewestIsTail(s.ui, s.sinkUi, cap);
    hide Newest;
    UselessPending(s.inf, s.sinkInf, i, Times(b));
    UselessPending(s.ui, s.sinkUi, k, Times(a));
    assert Harmless(s, cap) <==> Useless(a, i, Times(b)) && Useless(b, k, Times(a));
    hide Useless, Harmless;
    var lostInf := LoseInf(a, b, i);
    var lostUi := LoseUi(a[i..], b, k);
    j := lostInf + lostUi;
    assert Joint(a, b)[lostInf..][lostUi..] == Joint(a, b)[j..];
    if lostInf == 0 {
      UselessAfter(a, b, i, k);
    }
  }

  lemma TrimLoses(s: State, cap: nat) returns (j: nat)
    requires InOrder(s)
    ensures Loses(s, Trimmed(s, cap), None, j)
    ensures j == 0 <==> Harmless(s, cap)
  {
    hide Loses, Harmless, Owed, Pruned, InOrder;
    j := CapLoses(s, cap);
    LosesInOrder(s, Capped(s, cap), None, j);
    PruneConserves(Capped(s, cap));
    ConservingLosesNone(Capped(s, cap), Trimmed(s, cap), None);
    LossesAdd(s, Capped(s, cap), Trimmed(s, cap), None, j, 0);
  }

  lemma LosesInOrder(s: State, r: State, out: Option<Packet>, j: nat)
    requires Loses(s, r, out, j)
    ensures InOrder(r)
  {
  }

  lemma PullConserves(s: State, ready: bool)
    requires InOrder(s)
    ensures Conserves(s, PulledInf(s, ready), None)
    ensures Conserves(s, PulledUi(s, ready), None)
  {
    assert AllInf(PulledInf(s, ready)) == AllInf(s);
    assert AllUi(PulledUi(s, ready)) == AllUi(s);
  }

  lemma TrimThenMatch(s: State, cap: nat) returns (j: nat)
    requires InOrder(s)
    ensures var (r, out) := TryMatched(Trimmed(s, cap)); Loses(s, r, out, j) && (out.None? ==> Joint(r.inf, r.ui) == [])
    ensures j == 0 <==> Harmless(s, cap)
  {
    hide Loses, Harmless, Owed, Trimmed, InOrder, TryMatched, Joint;
    j := TrimLoses(s, cap);
    LosesInOrder(s, Trimmed(s, cap), None, j);
    MatchConserves(Trimmed(s, cap));
    var (r, out) := TryMatched(Trimmed(s, cap));
    ConservingLosesNone(Trimmed(s, cap), r, out);
    LossesAdd(s, Trimmed(s, cap), r, out, j, 0);
  }

  lemma NothingEmitted(s: State, r: State)
    requires Conserves(s, r, None)
    ensures InOrder(r) && Loses(s, r, None, 0)
  {
    ConservingLosesNone(s, r, None);
  }

  /** A read gives up some of the oldest pairs owed, none exactly if its trims are harmless, and then emits the oldest left. */
  lemma {:induction false} ReadLoses(s: State, cap: nat, call: Call, k: nat) returns (j: nat)
    requires InOrder(s) && k <= |call.polls|
    ensures var (r, out) := ReadFrom(s, cap, call, k);
      && Loses(s, r, out, j)
      && (out.None? ==> Joint(r.inf, r.ui) == [])
    ensures j == 0 <==> ReadKeeps(s, cap, call, k)
    decreases |call.polls| - k
  {
    hide TryMatched, PulledInf, PulledUi, Trimmed, InOrder, Owed, Joint, Harmless, Loses, Conserves;
    var polls := call.polls;
    if k == |polls| && !call.late {
      j := TrimThenMatch(s, cap);
    } else {
      MatchConserves(s);
      var (s1, r1) := TryMatched(s);
      if r1.Some? {
        ConservingLosesNone(s, s1, r1);
        j := 0;
      } else if k == |polls| {
        j := TrimThenMatch(s, cap);
      } else {
        var s2 := PulledInf(s, polls[k].inf);
        PullConserves(s, polls[k].inf);
        NothingEmitted(s, s2);
        MatchConserves(s2);
        var (s3, r2) := TryMatched(s2);
        if r2.Some? {
          ConservingLosesNone(s2, s3, r2);
          LossesAdd(s, s2, s3, r2, 0, 0);
          j := 0;
        } else {
          j := RestLoses(s, s2, cap, call, k);
        }
      }
    }
  }

  lemma {:induction false} RestLoses(s: State, s2: State, cap: nat, call: Call, k: nat) returns (j: nat)
    requires k < |call.polls| && InOrder(s2) && Loses(s, s2, None, 0)
    ensures var s3 := PulledUi(s2, call.polls[k].ui); var (r, out) := ReadFrom(Trimmed(s3, cap), cap, call, k + 1);
      && Loses(s, r, out, j)
      && (out.None? ==> Joint(r.inf, r.ui) == [])
      && (j == 0 <==> Harmless(s3, cap) && ReadKeeps(Trimmed(s3, cap), cap, call, k + 1))
    decreases |call.polls| - k, 0
  {
    hide PulledUi, Trimmed, InOrder, Owed, Joint, Harmless, Loses, Conserves, ReadFrom, ReadKeeps;
    var s3 := PulledUi(s2, call.polls[k].ui);
    PullConserves(s2, call.polls[k].ui);
    NothingEmitted(s2, s3);
    LossesAdd(s, s2, s3, None, 0, 0);
    var trimmed := TrimLoses(s3, cap);
    LosesInOrder(s3, Trimmed(s3, cap), None, trimmed);
    LossesAdd(s, s3, Trimmed(s3, cap), None, 0, trimmed);
    var later := ReadLoses(Trimmed(s3, cap), cap, call, k + 1);
    var (r, out) := ReadFrom(Trimmed(s3, cap), cap, call, k + 1);
    LossesAdd(s, Trimmed(s3, cap), r, out, trimmed, later);
    j := trimmed + later;
  }

  // ---------------------------------------------------------------- a whole run

  function Delivered(packets: seq<Packet>, out: Option<Packet>): seq<Packet>
  {
    if out.Some? then packets + [out.value] else packets
  }

  /** The state and the packets after a run of reads. */
  function Reads(s: State, cap: nat, calls: seq<Call>): (State, seq<Packet>)
  {
    if calls == [] then (s, [])
    else
      var (before, packets) := Reads(s, cap, calls[..|calls| - 1]);
      var (r, out) := ReadFrom(before, cap, calls[|calls| - 1], 0);
      (r, Delivered(packets, out))
  }

  /** Every trim of every read is harmless. */
  ghost predicate ReadsKeep(s: State, cap: nat, calls: seq<Call>)
  {
    calls != [] ==>
      && ReadsKeep(s, cap, calls[..|calls| - 1])
      && ReadKeeps(Reads(s, cap, calls[..|calls| - 1]).0, cap, calls[|calls| - 1], 0)
  }

  function Pairs(packets: seq<Packet>): (pairs: seq<Pair>)
    ensures |pairs| == |packets|
    ensures forall k :: 0 <= k < |packets| ==> pairs[k] == (packets[k].inf, packets[k].ui)
  {
    seq(|packets|, k requires 0 <= k < |packets| => (packets[k].inf, packets[k].ui))
  }

  ghost predicate Numbered(packets: seq<Packet>)
  {
    forall k :: 0 <= k < |packets| ==>
      packets[k].frameId == k && packets[k].pts == packets[k].inf.pts == packets[k].ui.pts && Scaled(packets[k])
  }

  /**
    The packets are some of the first cut pairs of those given, in order and numbered 0, 1, 2, ..., and
    the pairs after those are still owed.
  */
  ghost predicate Selects(total: seq<Pair>, r: State, packets: seq<Packet>, idx: seq<nat>, cut: nat)
  {
    && InOrder(r) && r.next == |packets| && Numbered(packets)
    && |packets| <= cut <= |total| && Owed(r) == total[cut..]
    && BoundedQueues.IsSelection(Pairs(packets), total, idx)
    && (forall i :: 0 <= i < |idx| ==> idx[i] < cut)
  }

  lemma SelectsInOrder(total: seq<Pair>, r: State, packets: seq<Packet>, idx: seq<nat>, cut: nat)
    requires Selects(total, r, packets, idx, cut)
    ensures InOrder(r)
  {
  }

  lemma OnePacketMore(packets: seq<Packet>, p: Packet)
    ensures Pairs(packets + [p]) == Pairs(packets) + [(p.inf, p.ui)]
  {
  }

  lemma OneReadMore(total: seq<Pair>, before: State, packets: seq<Packet>, r: State, out: Option<Packet>, idx: seq<nat>, cut: nat, j: nat)
    returns (more: seq<nat>, next: nat)
    requires Selects(total, before, packets, idx, cut) && Loses(before, r, out, j)
    ensures Selects(total, r, Delivered(packets, out), more, next)
    ensures |Delivered(packets, out)| == next <==> |packets| == cut && j == 0
  {
    hide Owed, InOrder, Pairs, BoundedQueues.IsSelection, Scaled;
    next := cut + j + |PairsOf(out)|;
    assert total[cut..][j..] == total[cut + j..];
    if out.None? {
      more := idx;
    } else {
      more := idx + [cut + j];
      OnePacketMore(packets, out.value);
      assert total[cut + j..] == [(out.value.inf, out.value.ui)] + Owed(r);
      assert total[cut + j] == (out.value.inf, out.value.ui);
      BoundedQueues.SelectionAppends(Pairs(packets), total, idx, cut + j);
      assert Owed(r) == total[cut + j..][1..];
    }
  }

  lemma {:induction false} RunSelects(s: State, cap: nat, calls: seq<Call>) returns (idx: seq<nat>, cut: nat)
    requires InOrder(s) && s.next == 0
    ensures Selects(Owed(s), Reads(s, cap, calls).0, Reads(s, cap, calls).1, idx, cut)
    ensures |Reads(s, cap, calls).1| == cut <==> ReadsKeep(s, cap, calls)
  {
    hide ReadFrom, ReadKeeps, Owed, InOrder;
    if calls == [] {
      idx, cut := [], 0;
    } else {
      hide Selects, Delivered, Loses;
      var (before, packets) := Reads(s, cap, calls[..|calls| - 1]);
      idx, cut := RunSelects(s, cap, calls[..|calls| - 1]);
      SelectsInOrder(Owed(s), before, packets, idx, cut);
      var j := ReadLoses(before, cap, calls[|calls| - 1], 0);
      var (r, out) := ReadFrom(before, cap, calls[|calls| - 1], 0);
      idx, cut := OneReadMore(Owed(s), before, packets, r, out, idx, cut, j);
    }
  }

  /** The packets are all of the first pairs exactly if there are as many. */
  lemma SelectsAllIff(total: seq<Pair>, r: State, packets: seq<Packet>, idx: seq<nat>, cut: nat)
    requires Selects(total, r, packets, idx, cut)
    ensures |packets| == cut <==> Pairs(packets) + Owed(r) == total
  {
    hide Owed, InOrder, Pairs, Numbered;
    assert BoundedQueues.IsSelection(Pairs(packets), total[..cut], idx);
    BoundedQueues.FullSelectionIsAll(total, cut, Pairs(packets), idx);
    hide BoundedQueues.IsSelection;
    assert total == total[..cut] + total[cut..];
  }

  /**
    Whatever the sinks and the clock do, the emitted pairs are a selection of the common timestamps of
    the two branches, in their order and numbered 0, 1, 2, ...; and none is passed over, so that they
    and what is still owed make up all of them, exactly if no trim takes away a frame that has a
    partner.
  */
  lemma EmittedAreASelection(inf: seq<PendingFrame>, ui: seq<PendingFrame>, cap: nat, calls: seq<Call>) returns (idx: seq<nat>)
    requires Ordered(inf) && Ordered(ui)
    ensures var s := State(inf, ui, [], [], 0); var (r, packets) := Reads(s, cap, calls);
      && Numbered(packets)
      && BoundedQueues.IsSelection(Pairs(packets), Joint(inf, ui), idx)
      && (Pairs(packets) + Owed(r) == Joint(inf, ui) <==> ReadsKeep(s, cap, calls))
  {
    var s := State(inf, ui, [], [], 0);
    assert AllInf(s) == inf && AllUi(s) == ui;
    hide Joint, Ordered, Reads, ReadsKeep;
    var (r, packets) := Reads(s, cap, calls);
    var cut;
    idx, cut := RunSelects(s, cap, calls);
    SelectsAllIff(Owed(s), r, packets, idx, cut);
    hide Pairs, BoundedQueues.IsSelection;
  }

  /**
    The merge join: if no trim takes away a frame that has a partner, the emitted pairs are the first of the common timestamps of the two branches,
    numbered 0, 1, 2, ...; once both branches are exhausted and a read comes back empty, they are all
    of them.
  */
  lemma SourceIsAMergeJoin(inf: seq<PendingFrame>, ui: seq<PendingFrame>, cap: nat, calls: seq<Call>)
    requires Ordered(inf) && Ordered(ui)
    requires ReadsKeep(State(inf, ui, [], [], 0), cap, calls)
    ensures var (r, packets) := Reads(State(inf, ui, [], [], 0), cap, calls);
      && Numbered(packets)
      && Pairs(packets) <= Joint(inf, ui)
      && (r.sinkInf == [] && r.sinkUi == [] && Joint(r.inf, r.ui) == [] ==> Pairs(packets) == Joint(inf, ui))
  {
    var s := State(inf, ui, [], [], 0);
    hide Joint, Ordered, Reads, ReadsKeep, Pairs, BoundedQueues.IsSelection, Numbered;
    var (r, packets) := Reads(s, cap, calls);
    var idx := EmittedAreASelection(inf, ui, cap, calls);
    assert r.sinkInf == [] && r.sinkUi == [] ==> AllInf(r) == r.inf && AllUi(r) == r.ui;
  }

  /** An empty read shows that nothing pending can be paired any more. */
  lemma EmptyReadMeansDrained(inf: seq<PendingFrame>, ui: seq<PendingFrame>, cap: nat, calls: seq<Call>)
    requires Ordered(inf) && Ordered(ui) && calls != []
    requires ReadsKeep(State(inf, ui, [], [], 0), cap, calls)
    requires var s := State(inf, ui, [], [], 0);
      ReadFrom(Reads(s, cap, calls[..|calls| - 1]).0, cap, calls[|calls| - 1], 0).1.None?
    requires var r := Reads(State(inf, ui, [], [], 0), cap, calls).0; r.sinkInf == [] && r.sinkUi == []
    ensures Pairs(Reads(State(inf, ui, [], [], 0), cap, calls).1) == Joint(inf, ui)
  {
    var s := State(inf, ui, [], [], 0);
    assert AllInf(s) == inf && AllUi(s) == ui;
    hide ReadFrom, ReadsKeep, Joint, Ordered, Selects, Loses, Pairs, ReadKeeps;
    var idx, cut := RunSelects(s, cap, calls[..|calls| - 1]);
    var before := Reads(s, cap, calls[..|calls| - 1]).0;
    SelectsInOrder(Owed(s), before, Reads(s, cap, calls[..|calls| - 1]).1, idx, cut);
    var j := ReadLoses(before, cap, calls[|calls| - 1], 0);
    SourceIsAMergeJoin(inf, ui, cap, calls);
  }

  // ---------------------------------------------------------------- when every run keeps every pair

  /** Were all frames pending at once, the cap would take away none that has a partner. */
  ghost predicate Safe(s: State, cap: nat)
  {
    && Useless(AllInf(s), |AllInf(s)| - cap, Times(AllUi(s)))
    && Useless(AllUi(s), |AllUi(s)| - cap, Times(AllInf(s)))
  }

  lemma SafeIsHarmless(s: State, cap: nat)
    requires Safe(s, cap)
    ensures Harmless(s, cap)
  {
    UselessPending(s.inf, s.sinkInf, |s.inf| - cap, Times(AllUi(s)));
    UselessPending(s.ui, s.sinkUi, |s.ui| - cap, Times(AllInf(s)));
    hide Times;
  }

  /** The frame stands in the queue from this position on, and at most so much later. */
  ghost predicate FoundFrom(x: PendingFrame, q: seq<PendingFrame>, m: nat, slack: nat)
  {
    exists n :: m <= n < |q| && n - m <= slack && q[n] == x
  }

  /** r has the frames of q but for some left out. */
  ghost predicate Thinner(r: seq<PendingFrame>, q: seq<PendingFrame>)
  {
    && |r| <= |q|
    && forall m :: 0 <= m < |r| ==> FoundFrom(r[m], q, m, |q| - |r|)
  }

  lemma ThinnerTimes(r: seq<PendingFrame>, q: seq<PendingFrame>)
    requires Thinner(r, q)
    ensures Times(r) <= Times(q)
  {
  }

  lemma ThinnerUseless(r: seq<PendingFrame>, q: seq<PendingFrame>, cap: nat, times: set<int>, more: set<int>)
    requires Thinner(r, q) && times <= more && Useless(q, |q| - cap, more)
    ensures Useless(r, |r| - cap, times)
  {
    forall m | 0 <= m < |r| - cap && m < |r|
      ensures r[m].pts !in times
    {
      assert FoundFrom(r[m], q, m, |q| - |r|);
    }
  }

  lemma ThinnerIsSafe(s: State, r: State, cap: nat)
    requires Safe(s, cap) && Thinner(AllInf(r), AllInf(s)) && Thinner(AllUi(r), AllUi(s))
    ensures Safe(r, cap)
  {
    hide Thinner, Times, Useless;
    ThinnerTimes(AllInf(r), AllInf(s));
    ThinnerTimes(AllUi(r), AllUi(s));
    ThinnerUseless(AllInf(r), AllInf(s), cap, Times(AllUi(r)), Times(AllUi(s)));
    ThinnerUseless(AllUi(r), AllUi(s), cap, Times(AllInf(r)), Times(AllInf(s)));
  }

  lemma WithoutIsThinner(q: seq<PendingFrame>, rest: seq<PendingFrame>, i: nat)
    requires i < |q|
    ensures Thinner(Without(q, i) + rest, q + rest)
  {
    var r, all := Without(q, i) + rest, q + rest;
    forall m | 0 <= m < |r|
      ensures FoundFrom(r[m], all, m, 1)
    {
      assert r[m] == all[if m < i then m else m + 1];
    }
  }

  lemma TailIsThinner(q: seq<PendingFrame>, i: nat)
    requires i <= |q|
    ensures Thinner(q[i..], q)
  {
    forall m | 0 <= m < |q| - i
      ensures FoundFrom(q[i..][m], q, m, i)
    {
      assert q[i..][m] == q[m + i];
    }
  }

  lemma SameIsThinner(q: seq<PendingFrame>)
    ensures Thinner(q, q)
  {
  }

  lemma MatchIsSafe(s: State, cap: nat)
    requires Safe(s, cap)
    ensures Safe(TryMatched(s).0, cap)
  {
    hide Safe, Thinner, Has;
    var r := TryMatched(s).0;
    var i := FirstMatched(s.inf, s.ui, 0);
    if i < |s.inf| {
      assert Has(s.ui, s.inf[i].pts);
      var j := FindPts(s.ui, s.inf[i].pts, 0);
      HasAt(s.ui, s.inf[i].pts);
      WithoutIsThinner(s.inf, s.sinkInf, i);
      WithoutIsThinner(s.ui, s.sinkUi, j);
      hide Without;
      ThinnerIsSafe(s, r, cap);
    } else if Untimed(s.inf) && Untimed(s.ui) {
      TailIsThinner(AllInf(s), 1);
      TailIsThinner(AllUi(s), 1);
      assert AllInf(r) == AllInf(s)[1..] && AllUi(r) == AllUi(s)[1..];
      ThinnerIsSafe(s, r, cap);
    }
  }

  lemma HasAt(q: seq<PendingFrame>, pts: int)
    requires Has(q, pts)
    ensures FindPts(q, pts, 0) < |q|
  {
  }

  lemma TailsAreSafe(s: State, i: nat, k: nat, cap: nat)
    requires i <= |s.inf| && k <= |s.ui| && Safe(s, cap)
    ensures Safe(s.(inf := s.inf[i..], ui := s.ui[k..]), cap)
  {
    hide Safe, Thinner;
    var r := s.(inf := s.inf[i..], ui := s.ui[k..]);
    TailIsThinner(AllInf(s), i);
    TailIsThinner(AllUi(s), k);
    assert AllInf(r) == AllInf(s)[i..] && AllUi(r) == AllUi(s)[k..];
    ThinnerIsSafe(s, r, cap);
  }

  lemma {:induction false} PruneIsSafe(s: State, cap: nat)
    requires Safe(s, cap)
    ensures Safe(Pruned(s), cap)
    decreases |s.inf| + |s.ui|
  {
    hide Safe, Has;
    match HeadChoice(s.inf, s.ui)
    case DropInf =>
      TailsAreSafe(s, 1, 0, cap);
      assert s.ui[0..] == s.ui;
      PruneIsSafe(s.(inf := s.inf[1..]), cap);
    case DropUi =>
      TailsAreSafe(s, 0, 1, cap);
      assert s.inf[0..] == s.inf;
      PruneIsSafe(s.(ui := s.ui[1..]), cap);
    case Stop =>
  }

  lemma TrimIsSafe(s: State, cap: nat)
    requires Safe(s, cap)
    ensures Safe(Trimmed(s, cap), cap)
  {
    hide Safe, Pruned;
    var i, k := MaxInt(0, |s.inf| - cap), MaxInt(0, |s.ui| - cap);
    TailsAreSafe(s, i, k, cap);
    assert Newest(s.inf, cap) == s.inf[i..] && Newest(s.ui, cap) == s.ui[k..];
    PruneIsSafe(s.(inf := s.inf[i..], ui := s.ui[k..]), cap);
  }

  lemma PullIsSafe(s: State, ready: bool, cap: nat)
    requires Safe(s, cap)
    ensures Safe(PulledInf(s, ready), cap) && Safe(PulledUi(s, ready), cap)
  {
    hide Useless, Times;
    assert AllInf(PulledInf(s, ready)) == AllInf(s);
    assert AllUi(PulledUi(s, ready)) == AllUi(s);
  }

  lemma {:induction false} SafeReadKeeps(s: State, cap: nat, call: Call, k: nat)
    requires k <= |call.polls| && Safe(s, cap)
    ensures ReadKeeps(s, cap, call, k) && Safe(ReadFrom(s, cap, call, k).0, cap)
    decreases |call.polls| - k
  {
    hide TryMatched, PulledInf, PulledUi, Trimmed, Safe, Harmless;
    MatchIsSafe(s, cap);
    var (s1, r1) := TryMatched(s);
    if k == |call.polls| {
      var last := if call.late then s1 else s;
      SafeIsHarmless(last, cap);
      TrimIsSafe(last, cap);
      MatchIsSafe(Trimmed(last, cap), cap);
    } else if r1.None? {
      PullIsSafe(s1, call.polls[k].inf, cap);
      MatchIsSafe(PulledInf(s1, call.polls[k].inf), cap);
      var (s2, r2) := TryMatched(PulledInf(s1, call.polls[k].inf));
      if r2.None? {
        PullIsSafe(s2, call.polls[k].ui, cap);
        var s3 := PulledUi(s2, call.polls[k].ui);
        SafeIsHarmless(s3, cap);
        TrimIsSafe(s3, cap);
        SafeReadKeeps(Trimmed(s3, cap), cap, call, k + 1);
      }
    }
  }

  lemma {:induction false} SafeRunKeeps(s: State, cap: nat, calls: seq<Call>)
    requires Safe(s, cap)
    ensures ReadsKeep(s, cap, calls) && Safe(Reads(s, cap, calls).0, cap)
  {
    hide ReadFrom, ReadKeeps, Safe;
    if calls != [] {
      SafeRunKeeps(s, cap, calls[..|calls| - 1]);
      SafeReadKeeps(Reads(s, cap, calls[..|calls| - 1]).0, cap, calls[|calls| - 1], 0);
    }
  }

  /** While only one branch delivers, its newest frames wait. */
  function OnlyInf(inf: seq<PendingFrame>, ui: seq<PendingFrame>, cap: nat, k: nat): State
    requires k <= |inf|
  {
    State(inf[k..], ui, Newest(inf[..k], cap), [], 0)
  }

  function OnlyUi(inf: seq<PendingFrame>, ui: seq<PendingFrame>, cap: nat, k: nat): State
    requires k <= |ui|
  {
    State(inf, ui[k..], [], Newest(ui[..k], cap), 0)
  }

  lemma NothingToMatch(s: State)
    requires s.inf == [] || s.ui == []
    ensures TryMatched(s) == (s, None) && Pruned(s) == s
  {
  }

  lemma NewestOfMore(q: seq<PendingFrame>, cap: nat, k: nat)
    requires k < |q|
    ensures Newest(Newest(q[..k], cap) + [q[k]], cap) == Newest(q[..k + 1], cap)
    ensures k >= cap ==> Newest(q[..k], cap) + [q[k]] == q[k - cap..k + 1]
  {
    assert q[..k] + [q[k]] == q[..k + 1];
    if k >= cap {
      assert Newest(q[..k], cap) == q[k - cap..k];
    }
  }

  lemma OnlyInfStep(inf: seq<PendingFrame>, ui: seq<PendingFrame>, cap: nat, k: nat)
    requires k < |inf|
    ensures var s := OnlyInf(inf, ui, cap, k); var pulled := PulledInf(s, true);
      && TryMatched(s) == (s, None) && TryMatched(pulled) == (pulled, None) && PulledUi(pulled, false) == pulled
      && Trimmed(pulled, cap) == OnlyInf(inf, ui, cap, k + 1)
      && (k >= cap ==> pulled.inf == inf[k - cap..k + 1] && AllUi(pulled) == ui)
  {
    var s, next := OnlyInf(inf, ui, cap, k), OnlyInf(inf, ui, cap, k + 1);
    var pulled := PulledInf(s, true);
    hide TryMatched, Newest, Pruned;
    NewestOfMore(inf, cap, k);
    NewestOfTail([], cap);
    NothingToMatch(s);
    NothingToMatch(pulled);
    NothingToMatch(next);
  }

  lemma OnlyUiStep(inf: seq<PendingFrame>, ui: seq<PendingFrame>, cap: nat, k: nat)
    requires k < |ui|
    ensures var s := OnlyUi(inf, ui, cap, k); var pulled := PulledUi(s, true);
      && TryMatched(s) == (s, None) && PulledInf(s, false) == s
      && Trimmed(pulled, cap) == OnlyUi(inf, ui, cap, k + 1)
      && (k >= cap ==> pulled.ui == ui[k - cap..k + 1] && AllInf(pulled) == inf)
  {
    var s, next := OnlyUi(inf, ui, cap, k), OnlyUi(inf, ui, cap, k + 1);
    hide TryMatched, Newest, Pruned;
    NewestOfMore(ui, cap, k);
    NewestOfTail([], cap);
    NothingToMatch(s);
    NothingToMatch(next);
  }

  lemma PollKeeps(s: State, cap: nat, call: Call, k: nat)
    requires k < |call.polls| && TryMatched(s) == (s, None)
    requires TryMatched(PulledInf(s, call.polls[k].inf)) == (PulledInf(s, call.polls[k].inf), None)
    ensures var polled := PulledUi(PulledInf(s, call.polls[k].inf), call.polls[k].ui);
      ReadKeeps(s, cap, call, k) <==> Harmless(polled, cap) && ReadKeeps(Trimmed(polled, cap), cap, call, k + 1)
  {
    hide TryMatched, PulledInf, PulledUi, Harmless, Trimmed;
  }

  lemma OldestHasPartner(s: State, cap: nat)
    requires (|s.inf| > cap && s.inf[0].pts in Times(AllUi(s))) || (|s.ui| > cap && s.ui[0].pts in Times(AllInf(s)))
    ensures !Harmless(s, cap)
  {
    hide Times;
  }

  /** If the inference branch delivers alone, the cap in the end takes away its m-th frame. */
  lemma {:induction false} OnlyInfLoses(inf: seq<PendingFrame>, ui: seq<PendingFrame>, cap: nat, call: Call, m: nat, k: nat)
    requires m + cap < |inf| && k <= m + cap && inf[m].pts in Times(ui)
    requires call.polls == seq(|inf|, _ => Poll(true, false))
    ensures !ReadKeeps(OnlyInf(inf, ui, cap, k), cap, call, k)
    decreases m + cap - k
  {
    hide *;
    assert call.polls[k] == Poll(true, false);
    OnlyInfStep(inf, ui, cap, k);
    PollKeeps(OnlyInf(inf, ui, cap, k), cap, call, k);
    if k == m + cap {
      OldestHasPartner(PulledInf(OnlyInf(inf, ui, cap, k), true), cap);
    } else {
      OnlyInfLoses(inf, ui, cap, call, m, k + 1);
    }
  }

  lemma {:induction false} OnlyUiLoses(inf: seq<PendingFrame>, ui: seq<PendingFrame>, cap: nat, call: Call, m: nat, k: nat)
    requires m + cap < |ui| && k <= m + cap && ui[m].pts in Times(inf)
    requires call.polls == seq(|ui|, _ => Poll(false, true))
    ensures !ReadKeeps(OnlyUi(inf, ui, cap, k), cap, call, k)
    decreases m + cap - k
  {
    hide *;
    assert call.polls[k] == Poll(false, true);
    OnlyUiStep(inf, ui, cap, k);
    PollKeeps(OnlyUi(inf, ui, cap, k), cap, call, k);
    if k == m + cap {
      OldestHasPartner(PulledUi(OnlyUi(inf, ui, cap, k), true), cap);
    } else {
      OnlyUiLoses(inf, ui, cap, call, m, k + 1);
    }
  }

  /** If some frame further than the cap from the end of its branch has a partner, one read loses it. */
  lemma UnsafeLoses(inf: seq<PendingFrame>, ui: seq<PendingFrame>, cap: nat) returns (call: Call)
    requires !Safe(State(inf, ui, [], [], 0), cap)
    ensures !ReadsKeep(State(inf, ui, [], [], 0), cap, [call])
  {
    var s := State(inf, ui, [], [], 0);
    assert AllInf(s) == inf && AllUi(s) == ui;
    hide Times, ReadKeeps, ReadsKeep, OnlyInf, OnlyUi;
    NothingDelivered(inf, ui, cap);
    if !Useless(inf, |inf| - cap, Times(ui)) {
      var m :| 0 <= m < |inf| - cap && m < |inf| && inf[m].pts in Times(ui);
      call := Call(seq(|inf|, _ => Poll(true, false)), false);
      OnlyInfLoses(inf, ui, cap, call, m, 0);
    } else {
      var m :| 0 <= m < |ui| - cap && m < |ui| && ui[m].pts in Times(inf);
      call := Call(seq(|ui|, _ => Poll(false, true)), false);
      OnlyUiLoses(inf, ui, cap, call, m, 0);
    }
    OneReadKeeps(s, cap, call);
  }

  lemma NothingDelivered(inf: seq<PendingFrame>, ui: seq<PendingFrame>, cap: nat)
    ensures OnlyInf(inf, ui, cap, 0) == State(inf, ui, [], [], 0) == OnlyUi(inf, ui, cap, 0)
  {
  }

  lemma OneReadKeeps(s: State, cap: nat, call: Call)
    ensures ReadsKeep(s, cap, [call]) ==> ReadKeeps(s, cap, call, 0)
  {
    hide ReadKeeps, ReadFrom;
    assert [call][..0] == [] && Reads(s, cap, []).0 == s;
  }

  /** Everything emitted and everything owed make up the join of the two branches. */
  ghost predicate KeepsThePairs(inf: seq<PendingFrame>, ui: seq<PendingFrame>, cap: nat, calls: seq<Call>)
  {
    var (r, packets) := Reads(State(inf, ui, [], [], 0), cap, calls);
    Pairs(packets) + Owed(r) == Joint(inf, ui)
  }

  lemma KeepsIff(inf: seq<PendingFrame>, ui: seq<PendingFrame>, cap: nat, calls: seq<Call>)
    requires Ordered(inf) && Ordered(ui)
    ensures KeepsThePairs(inf, ui, cap, calls) <==> ReadsKeep(State(inf, ui, [], [], 0), cap, calls)
  {
    hide Ordered, Joint, Owed, Reads, ReadsKeep, Pairs, Numbered, BoundedQueues.IsSelection;
    var idx := EmittedAreASelection(inf, ui, cap, calls);
  }

  /**
    Exactly for which branches the source is a merge join whatever the sinks and the clock do: those in
    which no frame further than the cap from the end of its branch has a partner in the other.
  */
  lemma EveryRunKeepsThePairsIff(inf: seq<PendingFrame>, ui: seq<PendingFrame>, cap: nat)
    requires Ordered(inf) && Ordered(ui)
    ensures (forall calls :: KeepsThePairs(inf, ui, cap, calls))
      <==> Useless(inf, |inf| - cap, Times(ui)) && Useless(ui, |ui| - cap, Times(inf))
  {
    var s := State(inf, ui, [], [], 0);
    assert AllInf(s) == inf && AllUi(s) == ui;
    hide Ordered, Joint, Times, Useless, ReadsKeep, KeepsThePairs;
    assert Safe(s, cap) <==> Useless(inf, |inf| - cap, Times(ui)) && Useless(ui, |ui| - cap, Times(inf));
    hide Safe;
    if Safe(s, cap) {
      forall calls
        ensures KeepsThePairs(inf, ui, cap, calls)
      {
        SafeRunKeeps(s, cap, calls);
        KeepsIff(inf, ui, cap, calls);
      }
    } else {
      var call := UnsafeLoses(inf, ui, cap);
      KeepsIff(inf, ui, cap, [call]);
    }
  }

  // ---------------------------------------------------------------- branches without timestamps

  ghost predicate NoTimes(q: seq<PendingFrame>)
  {
    forall i :: 0 <= i < |q| ==> q[i].pts <= 0 && !q[i].Empty()
  }

  /** The first n frames of each branch have been paired, and the others wait or are to come. */
  ghost predicate Paired(s: State, inf: seq<PendingFrame>, ui: seq<PendingFrame>, n: nat)
  {
    && n <= |inf| && n <= |ui| && s.next == n
    && AllInf(s) == inf[n..] && AllUi(s) == ui[n..]
  }

  /** What a match or a read does then: the next two frames are paired, or nothing happens. */
  ghost predicate PairsNext(r: State, out: Option<Packet>, inf: seq<PendingFrame>, ui: seq<PendingFrame>, n: nat)
  {
    if out.None? then Paired(r, inf, ui, n) && (r.inf == [] || r.ui == [])
    else
      && n < |inf| && n < |ui|
      && out.value.inf == inf[n] && out.value.ui == ui[n] && out.value.frameId == n && Scaled(out.value)
      && Paired(r, inf, ui, n + 1)
  }

  lemma PendingNoTimes(s: State, inf: seq<PendingFrame>, ui: seq<PendingFrame>, n: nat)
    requires NoTimes(inf) && NoTimes(ui) && Paired(s, inf, ui, n)
    ensures NoTimes(s.inf) && NoTimes(s.ui) && |s.inf| <= |inf| && |s.ui| <= |ui|
  {
    forall i | 0 <= i < |s.inf|
      ensures s.inf[i].pts <= 0 && !s.inf[i].Empty()
    {
      assert s.inf[i] == AllInf(s)[i] == inf[n + i];
    }
    forall i | 0 <= i < |s.ui|
      ensures s.ui[i].pts <= 0 && !s.ui[i].Empty()
    {
      assert s.ui[i] == AllUi(s)[i] == ui[n + i];
    }
  }

  lemma MatchPairs(s: State, inf: seq<PendingFrame>, ui: seq<PendingFrame>, n: nat)
    requires NoTimes(inf) && NoTimes(ui) && Paired(s, inf, ui, n)
    ensures PairsNext(TryMatched(s).0, TryMatched(s).1, inf, ui, n)
    ensures TryMatched(s).1.None? ==> TryMatched(s).0 == s
  {
    PendingNoTimes(s, inf, ui, n);
    assert FirstMatched(s.inf, s.ui, 0) == |s.inf|;
    hide FirstMatched, Has, Scale;
    if s.inf != [] && s.ui != [] {
      assert s.inf[0] == AllInf(s)[0] == inf[n] && s.ui[0] == AllUi(s)[0] == ui[n];
      EmittedScaled(s, s.inf[0], s.ui[0]);
      hide Scaled;
      var r := TryMatched(s).0;
      assert AllInf(r) == AllInf(s)[1..] == inf[n + 1..] && AllUi(r) == AllUi(s)[1..] == ui[n + 1..];
    }
  }

  /** Nothing is trimmed while the cap is as large as the branches. */
  lemma NothingTrimmed(s: State, inf: seq<PendingFrame>, ui: seq<PendingFrame>, cap: nat, n: nat)
    requires NoTimes(inf) && NoTimes(ui) && Paired(s, inf, ui, n) && |inf| <= cap && |ui| <= cap
    ensures Trimmed(s, cap) == s
  {
    PendingNoTimes(s, inf, ui, n);
    assert HeadChoice(s.inf, s.ui) == Stop;
  }

  lemma PullPairs(s: State, inf: seq<PendingFrame>, ui: seq<PendingFrame>, n: nat, ready: bool)
    requires Paired(s, inf, ui, n)
    ensures Paired(PulledInf(s, ready), inf, ui, n) && Paired(PulledUi(s, ready), inf, ui, n)
  {
    assert AllInf(PulledInf(s, ready)) == AllInf(s);
    assert AllUi(PulledUi(s, ready)) == AllUi(s);
  }

  lemma {:induction false} ReadPairs(s: State, cap: nat, call: Call, k: nat, inf: seq<PendingFrame>, ui: seq<PendingFrame>, n: nat)
    requires k <= |call.polls| && NoTimes(inf) && NoTimes(ui) && Paired(s, inf, ui, n) && |inf| <= cap && |ui| <= cap
    ensures PairsNext(ReadFrom(s, cap, call, k).0, ReadFrom(s, cap, call, k).1, inf, ui, n)
    decreases |call.polls| - k
  {
    hide TryMatched, Trimmed, PulledInf, PulledUi, NoTimes, Paired, PairsNext;
    MatchPairs(s, inf, ui, n);
    NothingTrimmed(s, inf, ui, cap, n);
    if k < |call.polls| && TryMatched(s).1.None? {
      var s1 := PulledInf(s, call.polls[k].inf);
      PullPairs(s, inf, ui, n, call.polls[k].inf);
      MatchPairs(s1, inf, ui, n);
      if TryMatched(s1).1.None? {
        var s2 := PulledUi(s1, call.polls[k].ui);
        PullPairs(s1, inf, ui, n, call.polls[k].ui);
        NothingTrimmed(s2, inf, ui, cap, n);
        ReadPairs(s2, cap, call, k + 1, inf, ui, n);
      }
    }
  }

  /** The packets are the first frames of both branches, one by one. */
  ghost predicate InArrivalOrder(packets: seq<Packet>, inf: seq<PendingFrame>, ui: seq<PendingFrame>)
  {
    && |packets| <= |inf| && |packets| <= |ui|
    && forall k :: 0 <= k < |packets| ==>
         packets[k].inf == inf[k] && packets[k].ui == ui[k] && packets[k].frameId == k && Scaled(packets[k])
  }

  lemma OneMoreInOrder(packets: seq<Packet>, r: State, out: Option<Packet>, inf: seq<PendingFrame>, ui: seq<PendingFrame>)
    requires InArrivalOrder(packets, inf, ui) && PairsNext(r, out, inf, ui, |packets|)
    ensures InArrivalOrder(Delivered(packets, out), inf, ui) && Paired(r, inf, ui, |Delivered(packets, out)|)
  {
    hide Paired, Scaled;
  }

  lemma {:induction false} RunPairs(inf: seq<PendingFrame>, ui: seq<PendingFrame>, cap: nat, calls: seq<Call>)
    requires NoTimes(inf) && NoTimes(ui) && |inf| <= cap && |ui| <= cap
    ensures var (r, packets) := Reads(State(inf, ui, [], [], 0), cap, calls);
      InArrivalOrder(packets, inf, ui) && Paired(r, inf, ui, |packets|)
  {
    var s := State(inf, ui, [], [], 0);
    if calls == [] {
      assert AllInf(s) == inf[0..] && AllUi(s) == ui[0..];
    } else {
      hide ReadFrom, NoTimes, PairsNext, Paired, InArrivalOrder, Delivered;
      var (before, packets) := Reads(s, cap, calls[..|calls| - 1]);
      RunPairs(inf, ui, cap, calls[..|calls| - 1]);
      ReadPairs(before, cap, calls[|calls| - 1], 0, inf, ui, |packets|);
      var (r, out) := ReadFrom(before, cap, calls[|calls| - 1], 0);
      OneMoreInOrder(packets, r, out, inf, ui);
    }
  }

  lemma ExhaustedPairs(r: State, inf: seq<PendingFrame>, ui: seq<PendingFrame>, n: nat)
    requires Paired(r, inf, ui, n) && r.sinkInf == [] && r.sinkUi == [] && (r.inf == [] || r.ui == [])
    ensures n == MinInt(|inf|, |ui|)
  {
    assert |AllInf(r)| == |inf| - n && |AllUi(r)| == |ui| - n;
  }

  /**
    Branches without timestamps are paired in the order in which their frames arrive, as long as the cap
    takes none away; when both sinks are empty and nothing pending can be paired, the shorter one is used
    up.
  */
  lemma UntimedFramesPairInOrder(inf: seq<PendingFrame>, ui: seq<PendingFrame>, cap: nat, calls: seq<Call>)
    requires NoTimes(inf) && NoTimes(ui) && |inf| <= cap && |ui| <= cap
    ensures var (r, packets) := Reads(State(inf, ui, [], [], 0), cap, calls);
      && InArrivalOrder(packets, inf, ui)
      && (r.sinkInf == [] && r.sinkUi == [] && (r.inf == [] || r.ui == []) ==> |packets| == MinInt(|inf|, |ui|))
  {
    hide Reads, InArrivalOrder, Paired, NoTimes;
    RunPairs(inf, ui, cap, calls);
    var (r, packets) := Reads(State(inf, ui, [], [], 0), cap, calls);
    if r.sinkInf == [] && r.sinkUi == [] && (r.inf == [] || r.ui == []) {
      ExhaustedPairs(r, inf, ui, |packets|);
    }
  }
}
