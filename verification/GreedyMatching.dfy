/**
  Greedy choice of pairs by descending score: one-to-one, maximal, and worth at least half of any
  other one-to-one choice.
*/
module GreedyMatching {

  datatype Candidate = Candidate(ti: nat, di: nat, iou: real)
  {
    predicate Conflicts(other: Candidate) { ti == other.ti || di == other.di }
  }

  ghost predicate Descending(c: seq<Candidate>)
  {
    forall i, j :: 0 <= i < j < |c| ==> c[i].iou >= c[j].iou
  }

  /** No track and no detection occurs twice. */
  ghost predicate OneToOne(m: seq<Candidate>)
  {
    forall i, j :: 0 <= i < j < |m| ==> !m[i].Conflicts(m[j])
  }

  ghost predicate Free(m: seq<Candidate>, x: Candidate)
  {
    forall i :: 0 <= i < |m| ==> !m[i].Conflicts(x)
  }

  ghost predicate AllFree(m: seq<Candidate>, others: seq<Candidate>)
  {
    forall i :: 0 <= i < |others| ==> Free(m, others[i])
  }

  /** What the greedy scan has chosen after the first k candidates. */
  ghost function Picked(c: seq<Candidate>, k: nat): (m: seq<Candidate>)
    requires k <= |c|
  {
    if k == 0 then []
    else
      var m := Picked(c, k - 1);
      if Free(m, c[k - 1]) then m + [c[k - 1]] else m
  }

  function Total(m: seq<Candidate>): real
  {
    if m == [] then 0.0 else Total(m[..|m| - 1]) + m[|m| - 1].iou
  }

  ghost predicate From(m: seq<Candidate>, c: seq<Candidate>)
  {
    forall i :: 0 <= i < |m| ==> m[i] in c
  }

  // ---------------------------------------------------------------- one-to-one and maximal

  lemma {:induction false} PickedIsMaximal(c: seq<Candidate>, k: nat)
    requires k <= |c|
    ensures OneToOne(Picked(c, k)) && From(Picked(c, k), c)
    ensures forall x :: 0 <= x < k ==> c[x] in Picked(c, k) || !Free(Picked(c, k), c[x])
  {
    if k > 0 {
      PickedIsMaximal(c, k - 1);
      var before, after := Picked(c, k - 1), Picked(c, k);
      forall x | 0 <= x < k
        ensures c[x] in after || !Free(after, c[x])
      {
        if x < k - 1 && !Free(before, c[x]) {
          var i :| 0 <= i < |before| && before[i].Conflicts(c[x]);
          assert after[i] == before[i];
        }
      }
    }
  }

  // ---------------------------------------------------------------- half of the best

  function Without(m: seq<Candidate>, i: nat): (r: seq<Candidate>)
    requires i < |m|
  {
    m[..i] + m[i + 1..]
  }

  lemma {:induction false} TotalWithout(m: seq<Candidate>, i: nat)
    requires i < |m|
    ensures Total(m) == Total(Without(m, i)) + m[i].iou
    decreases |m|
  {
    var last := |m| - 1;
    if i == last {
      assert Without(m, i) == m[..last];
    } else {
      TotalWithout(m[..last], i);
      assert Without(m, i)[..last - 1] == Without(m[..last], i);
    }
  }

  lemma WithoutKeeps(m: seq<Candidate>, i: nat, c: seq<Candidate>)
    requires i < |m| && OneToOne(m) && From(m, c)
    ensures OneToOne(Without(m, i)) && From(Without(m, i), c)
    ensures Free(Without(m, i), m[i])
    ensures forall x :: x in Without(m, i) ==> x in m
  {
  }

  /** Dropping what conflicts with x loses at most two pairs. */
  lemma DropConflicts(m: seq<Candidate>, x: Candidate, top: real) returns (rest: seq<Candidate>)
    requires OneToOne(m) && top >= 0.0
    requires forall i :: 0 <= i < |m| ==> m[i].iou <= top
    ensures OneToOne(rest) && From(rest, m) && Free(rest, x)
    ensures Total(m) <= Total(rest) + 2.0 * top
  {
    var first := DropTrack(m, x, top);
    rest := DropDetection(first, x, top);
  }

  lemma DropTrack(m: seq<Candidate>, x: Candidate, top: real) returns (rest: seq<Candidate>)
    requires OneToOne(m) && top >= 0.0
    requires forall i :: 0 <= i < |m| ==> m[i].iou <= top
    ensures OneToOne(rest) && From(rest, m)
    ensures forall i :: 0 <= i < |rest| ==> rest[i].ti != x.ti
    ensures Total(m) <= Total(rest) + top
  {
    rest := m;
    if i :| 0 <= i < |m| && m[i].ti == x.ti {
      rest := Without(m, i);
      TotalWithout(m, i);
      WithoutKeeps(m, i, m);
    }
  }

  lemma DropDetection(m: seq<Candidate>, x: Candidate, top: real) returns (rest: seq<Candidate>)
    requires OneToOne(m) && top >= 0.0
    requires forall i :: 0 <= i < |m| ==> m[i].iou <= top
    ensures OneToOne(rest) && From(rest, m)
    ensures forall i :: 0 <= i < |rest| ==> rest[i].di != x.di
    ensures Total(m) <= Total(rest) + top
  {
    rest := m;
    if i :| 0 <= i < |m| && m[i].di == x.di {
      rest := Without(m, i);
      TotalWithout(m, i);
      WithoutKeeps(m, i, m);
    }
  }

  /** From the k-th candidate on, the scan earns at least half of any choice still open to it. */
  lemma {:induction false} RestIsWorthHalf(c: seq<Candidate>, k: nat, m: seq<Candidate>)
    requires Descending(c) && k <= |c| && OneToOne(m) && From(m, c[k..])
    requires forall i :: 0 <= i < |c| ==> c[i].iou >= 0.0
    requires AllFree(Picked(c, k), m)
    ensures Total(m) <= 2.0 * (Total(Picked(c, |c|)) - Total(Picked(c, k)))
    decreases |c| - k
  {
    if k == |c| {
      assert c[k..] == [];
    } else {
      var x, before := c[k], Picked(c, k);
      if Free(before, x) {
        var after := Picked(c, k + 1);
        assert after[..|after| - 1] == before && after[|after| - 1] == x;
        forall i | 0 <= i < |m|
          ensures m[i].iou <= x.iou
        {
          assert m[i] in c[k..];
        }
        var rest := DropConflicts(m, x, x.iou);
        StillOpen(c, k, m, rest);
        RestIsWorthHalf(c, k + 1, rest);
      } else {
        forall i | 0 <= i < |m|
          ensures m[i] in c[k + 1..]
        {
          assert m[i] in c[k..] && Free(before, m[i]);
          InTail(c, k, m[i]);
        }
        RestIsWorthHalf(c, k + 1, m);
      }
    }
  }

  lemma InTail(c: seq<Candidate>, k: nat, x: Candidate)
    requires k < |c| && x in c[k..] && x != c[k]
    ensures x in c[k + 1..]
  {
    assert c[k..] == [c[k]] + c[k + 1..];
  }

  lemma StillOpen(c: seq<Candidate>, k: nat, m: seq<Candidate>, rest: seq<Candidate>)
    requires k < |c| && From(m, c[k..]) && AllFree(Picked(c, k), m) && Free(Picked(c, k), c[k])
    requires From(rest, m) && Free(rest, c[k])
    ensures From(rest, c[k + 1..]) && AllFree(Picked(c, k + 1), rest)
  {
    forall i | 0 <= i < |rest|
      ensures rest[i] in c[k + 1..] && Free(Picked(c, k + 1), rest[i])
    {
      assert rest[i] in m && !rest[i].Conflicts(c[k]);
      var j :| 0 <= j < |m| && m[j] == rest[i];
      assert m[j] in c[k..] && Free(Picked(c, k), m[j]);
      InTail(c, k, rest[i]);
    }
  }

  /** Greedy is worth at least half of every one-to-one choice of candidates. */
  lemma GreedyIsWorthHalf(c: seq<Candidate>, m: seq<Candidate>)
    requires Descending(c) && OneToOne(m) && From(m, c)
    requires forall i :: 0 <= i < |c| ==> c[i].iou >= 0.0
    ensures Total(m) <= 2.0 * Total(Picked(c, |c|))
  {
    assert c[0..] == c;
    RestIsWorthHalf(c, 0, m);
  }
}
