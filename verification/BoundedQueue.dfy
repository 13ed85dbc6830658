/**
  The bounded queue between pipeline stages (core/include/pipeline/bounded_queue.hpp). A full queue
  drops its oldest entry, so a stage sees an order-preserving selection of what was sent to it: never
  something else, never twice, never out of order.
*/
module BoundedQueues {
  // ---------------------------------------------------------------- one queue as a value

  datatype State<T> = State(q: seq<T>, dropped: nat, stopped: bool)

  /** What other threads may do to the queue; every locked section is one step. */
  datatype Op<T> = PushDropOldest(v: T) | TryPop | PopFor | Stop | Reset

  predicate Accepts<T>(s: State<T>, cap: nat)
  {
    !s.stopped && cap > 0
  }

  function Pushed<T>(s: State<T>, cap: nat, v: T): State<T>
  {
    if !Accepts(s, cap) then s
    else if |s.q| >= cap then s.(q := s.q[1..] + [v], dropped := s.dropped + 1)
    else s.(q := s.q + [v])
  }

  function Popped<T>(s: State<T>): State<T>
  {
    if s.q == [] then s else s.(q := s.q[1..])
  }

  function Step<T>(s: State<T>, cap: nat, op: Op<T>): State<T>
  {
    match op
    case PushDropOldest(v) => Pushed(s, cap, v)
    case TryPop => Popped(s)
    case PopFor => if s.stopped then s else Popped(s)
    case Stop => s.(stopped := true)
    case Reset => State([], 0, false)
  }

  /** What a step hands to its caller. */
  function Handed<T>(s: State<T>, op: Op<T>): seq<T>
  {
    if s.q != [] && (op.TryPop? || (op.PopFor? && !s.stopped)) then [s.q[0]] else []
  }

  /** What a step takes in. */
  function Taken<T>(s: State<T>, cap: nat, op: Op<T>): seq<T>
  {
    if op.PushDropOldest? && Accepts(s, cap) then [op.v] else []
  }

  /** A push that finds the queue full. */
  predicate Overflows<T>(s: State<T>, cap: nat, op: Op<T>)
  {
    op.PushDropOldest? && Accepts(s, cap) && |s.q| >= cap
  }

  // ---------------------------------------------------------------- whole runs

  function After<T>(s: State<T>, cap: nat, ops: seq<Op<T>>): State<T>
  {
    if ops == [] then s else Step(After(s, cap, ops[..|ops| - 1]), cap, ops[|ops| - 1])
  }

  /** Everything taken in during a run, in order. */
  function Accepted<T>(s: State<T>, cap: nat, ops: seq<Op<T>>): seq<T>
  {
    if ops == [] then []
    else Accepted(s, cap, ops[..|ops| - 1]) + Taken(After(s, cap, ops[..|ops| - 1]), cap, ops[|ops| - 1])
  }

  /** Everything handed out during a run, in order. */
  function Delivered<T>(s: State<T>, cap: nat, ops: seq<Op<T>>): seq<T>
  {
    if ops == [] then []
    else Delivered(s, cap, ops[..|ops| - 1]) + Handed(After(s, cap, ops[..|ops| - 1]), ops[|ops| - 1])
  }

  /** How many pushes found the queue full. */
  function Overflowed<T>(s: State<T>, cap: nat, ops: seq<Op<T>>): nat
  {
    if ops == [] then 0
    else Overflowed(s, cap, ops[..|ops| - 1]) + (if Overflows(After(s, cap, ops[..|ops| - 1]), cap, ops[|ops| - 1]) then 1 else 0)
  }

  function Empty<T>(): State<T> { State([], 0, false) }

  predicate NeverReset<T>(ops: seq<Op<T>>)
  {
    forall i :: 0 <= i < |ops| ==> !ops[i].Reset?
  }

  /** r is s with some elements left out. */
  ghost predicate IsSelection<T>(r: seq<T>, s: seq<T>, idx: seq<nat>)
  {
    && |idx| == |r|
    && (forall i :: 0 <= i < |idx| ==> idx[i] < |s| && r[i] == s[idx[i]])
    && (forall i, j :: 0 <= i < j < |idx| ==> idx[i] < idx[j])
  }

  /** The queue holds the newest entries taken in, and everything handed out is older than those. */
  ghost predicate Follows<T>(s: State<T>, cap: nat, accepted: seq<T>, delivered: seq<T>, idx: seq<nat>)
  {
    && |s.q| <= cap
    && |s.q| <= |accepted|
    && s.q == accepted[|accepted| - |s.q|..]
    && IsSelection(delivered, accepted, idx)
    && (forall i :: 0 <= i < |idx| ==> idx[i] < |accepted| - |s.q|)
  }

  lemma SelectionGrows<T>(r: seq<T>, s: seq<T>, idx: seq<nat>, extra: seq<T>)
    requires IsSelection(r, s, idx)
    ensures IsSelection(r, s + extra, idx)
  {
  }

  lemma SelectionAppends<T>(r: seq<T>, s: seq<T>, idx: seq<nat>, k: nat)
    requires IsSelection(r, s, idx) && k < |s| && forall i :: 0 <= i < |idx| ==> idx[i] < k
    ensures IsSelection(r + [s[k]], s, idx + [k])
  {
  }

  lemma PushFollows<T>(s: State<T>, cap: nat, accepted: seq<T>, delivered: seq<T>, idx: seq<nat>, v: T)
    requires Follows(s, cap, accepted, delivered, idx) && Accepts(s, cap)
    ensures Follows(Pushed(s, cap, v), cap, accepted + [v], delivered, idx)
  {
    SelectionGrows(delivered, accepted, idx, [v]);
    var r, all := Pushed(s, cap, v), accepted + [v];
    hide IsSelection;
    assert all[|accepted| - |s.q|..] == s.q + [v];
    assert r.q == all[|all| - |r.q|..];
  }

  lemma PopFollows<T>(s: State<T>, cap: nat, accepted: seq<T>, delivered: seq<T>, idx: seq<nat>)
    requires Follows(s, cap, accepted, delivered, idx) && s.q != []
    ensures Follows(Popped(s), cap, accepted, delivered + [s.q[0]], idx + [|accepted| - |s.q|])
  {
    SelectionAppends(delivered, accepted, idx, |accepted| - |s.q|);
    hide IsSelection;
  }

  lemma StepFollows<T>(s: State<T>, cap: nat, accepted: seq<T>, delivered: seq<T>, idx: seq<nat>, op: Op<T>) returns (more: seq<nat>)
    requires Follows(s, cap, accepted, delivered, idx)
    ensures Follows(Step(s, cap, op), cap, accepted + Taken(s, cap, op), delivered + Handed(s, op), more)
  {
    more := idx;
    assert accepted + [] == accepted && delivered + [] == delivered;
    if Taken(s, cap, op) != [] {
      PushFollows(s, cap, accepted, delivered, idx, op.v);
    } else if Handed(s, op) != [] {
      PopFollows(s, cap, accepted, delivered, idx);
      more := idx + [|accepted| - |s.q|];
    }
    hide IsSelection;
  }

  /** Whatever the threads do, a queue stays within its capacity and hands out a selection of what it took in, in order. */
  lemma {:induction false} DeliveryIsASelection<T>(cap: nat, ops: seq<Op<T>>) returns (idx: seq<nat>)
    ensures Follows(After(Empty(), cap, ops), cap, Accepted(Empty(), cap, ops), Delivered(Empty(), cap, ops), idx)
  {
    if ops == [] {
      idx := [];
    } else {
      var before := ops[..|ops| - 1];
      var so := DeliveryIsASelection(cap, before);
      idx := StepFollows(After(Empty(), cap, before), cap, Accepted(Empty(), cap, before), Delivered(Empty(), cap, before), so, ops[|ops| - 1]);
    }
  }

  /** Nothing disappears uncounted: every entry taken in was handed out, is still queued, or is counted as dropped. */
  lemma {:induction false} EntriesAreConserved<T>(cap: nat, ops: seq<Op<T>>)
    requires NeverReset(ops)
    ensures var s := After(Empty(), cap, ops);
      && |Accepted(Empty(), cap, ops)| == |Delivered(Empty(), cap, ops)| + s.dropped + |s.q|
      && s.dropped == Overflowed(Empty(), cap, ops)
  {
    if ops != [] {
      EntriesAreConserved(cap, ops[..|ops| - 1]);
    }
  }

  lemma FullSelectionIsAll<T>(s: seq<T>, cut: nat, r: seq<T>, idx: seq<nat>)
    requires cut <= |s| && IsSelection(r, s[..cut], idx)
    ensures |r| <= cut && (|r| == cut ==> r == s[..cut])
  {
    SelectionIsShort(r, s[..cut], idx, |r|);
    if |r| == cut {
      forall i | 0 <= i < cut
        ensures r[i] == s[i]
      {
        SelectionIsShort(r, s[..cut], idx, i);
        SelectionLeavesRoom(r, s[..cut], idx, i);
      }
    }
  }

  lemma {:induction false} SelectionIsShort<T>(r: seq<T>, s: seq<T>, idx: seq<nat>, n: nat)
    requires IsSelection(r, s, idx) && n <= |r|
    ensures n < |r| ==> n <= idx[n]
    ensures n <= |s|
  {
    if n > 0 {
      SelectionIsShort(r, s, idx, n - 1);
    }
  }

  lemma {:induction false} SelectionLeavesRoom<T>(r: seq<T>, s: seq<T>, idx: seq<nat>, n: nat)
    requires IsSelection(r, s, idx) && n < |r|
    ensures idx[n] + (|r| - n) <= |s|
    decreases |r| - n
  {
    if n + 1 < |r| {
      SelectionLeavesRoom(r, s, idx, n + 1);
    }
  }

  lemma NothingLostIff<T>(s: State<T>, cap: nat, accepted: seq<T>, delivered: seq<T>, idx: seq<nat>)
    requires Follows(s, cap, accepted, delivered, idx) && |accepted| == |delivered| + s.dropped + |s.q|
    ensures s.dropped == 0 <==> delivered + s.q == accepted
  {
    var cut := |accepted| - |s.q|;
    assert IsSelection(delivered, accepted[..cut], idx);
    FullSelectionIsAll(accepted, cut, delivered, idx);
    hide IsSelection;
    assert accepted == accepted[..cut] + s.q;
  }

  /**
    A queue is a loss-free first-in first-out channel exactly when no push ever found it full: only
    then is what it handed out, followed by what it holds, all that it took in.
  */
  lemma LossFreeIff<T>(cap: nat, ops: seq<Op<T>>)
    requires NeverReset(ops)
    ensures Overflowed(Empty(), cap, ops) == 0
      <==> Delivered(Empty(), cap, ops) + After(Empty(), cap, ops).q == Accepted(Empty(), cap, ops)
  {
    var idx := DeliveryIsASelection(cap, ops);
    EntriesAreConserved(cap, ops);
    hide After, Accepted, Delivered, Overflowed, Follows;
    NothingLostIff(After(Empty(), cap, ops), cap, Accepted(Empty(), cap, ops), Delivered(Empty(), cap, ops), idx);
  }

  // ---------------------------------------------------------------- the class

  class BoundedQueue<T> {
    const cap: nat
    var q: seq<T>
    var droppedCount: nat
    var stopped: bool

    ghost function Now(): State<T>
      reads this
    {
      State(q, droppedCount, stopped)
    }

    constructor (capacity: nat)
      ensures Now() == Empty() && cap == capacity
    {
      cap, q, droppedCount, stopped := capacity, [], 0, false;
    }

    method Push(v: T)
      modifies this
      ensures Now() == Step(old(Now()), cap, PushDropOldest(v))
    {
      if stopped || cap == 0 {
        return;
      }
      if |q| >= cap {
        q := q[1..];
        droppedCount := droppedCount + 1;
      }
      q := q + [v];
    }

    /** Hands out the oldest entry, also from a stopped queue. */
    method TryPop() returns (out: seq<T>)
      modifies this
      ensures Now() == Step(old(Now()), cap, Op.TryPop) && out == Handed(old(Now()), Op.TryPop)
    {
      if q == [] {
        return [];
      }
      out := [q[0]];
      q := q[1..];
    }

    /** The end of a timed wait: hands out the oldest entry unless the queue was stopped or is still empty. */
    method PopFor() returns (out: seq<T>)
      modifies this
      ensures Now() == Step(old(Now()), cap, Op.PopFor) && out == Handed(old(Now()), Op.PopFor)
    {
      if stopped || q == [] {
        return [];
      }
      out := [q[0]];
      q := q[1..];
    }

    method Stop()
      modifies this
      ensures Now() == Step(old(Now()), cap, Op.Stop)
    {
      stopped := true;
    }

    method Reset()
      modifies this
      ensures Now() == Step(old(Now()), cap, Op.Reset)
    {
      q, droppedCount, stopped := [], 0, false;
    }
  }
}
