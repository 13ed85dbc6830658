/**
  The shortest-augmenting-path assignment solver of core/src/tracking/association.cpp, with its
  dual potentials, and the proof that the assignment it returns has minimum total cost.

  Rows and columns inside the solver are numbered from 1; column 0 is the virtual column in which
  the row being inserted starts.
*/
module Hungarian {
  import opened Sums
  import opened Matchings
  import opened Sets

  // The sentinel the solver uses for "not reached yet".
  const INF: real := 1000000000.0

  // ---------------------------------------------------------------- solver state, as sequences

  function Slack(mat: seq<seq<real>>, u: seq<real>, v: seq<real>, r: int, j: int): real
    requires 1 <= r <= |mat| && r < |u|
    requires 1 <= j <= |mat[r - 1]| && j < |v|
  {
    mat[r - 1][j - 1] - u[r] - v[j]
  }

  ghost predicate Shape(mat: seq<seq<real>>, n: nat, m: nat)
  {
    && Rectangular(mat, n, m)
    && 1 <= n <= m
  }

  ghost predicate Sized(mat: seq<seq<real>>, n: nat, m: nat, u: seq<real>, v: seq<real>, p: seq<int>)
  {
    && Shape(mat, n, m)
    && |u| == n + 1
    && |v| == m + 1
    && |p| == m + 1
  }

  /** Every column but `hole` holds a row of 1..i or nothing (0), and each of these rows is held exactly once. */
  ghost predicate Holds(p: seq<int>, hole: int, i: int)
  {
    && (forall j :: 0 <= j < |p| && j != hole ==> 0 <= p[j] <= i)
    && (forall j, k :: 0 <= j < k < |p| && j != hole && k != hole && p[j] == p[k] ==> p[j] == 0)
    && (forall r :: 1 <= r <= i ==> Held(p, hole, r))
  }

  ghost predicate Held(p: seq<int>, hole: int, r: int)
  {
    exists j :: 0 <= j < |p| && j != hole && p[j] == r
  }

  /** No edge of rows 1..i is cheaper than its potentials. */
  ghost predicate Feasible(mat: seq<seq<real>>, n: nat, m: nat, u: seq<real>, v: seq<real>, i: int)
    requires Shape(mat, n, m) && |u| == n + 1 && |v| == m + 1 && i <= n
  {
    forall r, j :: 1 <= r <= i && 1 <= j <= m ==> Slack(mat, u, v, r, j) >= 0.0
  }

  /** Every held edge outside `hole` is tight. */
  ghost predicate Tight(mat: seq<seq<real>>, n: nat, m: nat, u: seq<real>, v: seq<real>, p: seq<int>, hole: int)
    requires Sized(mat, n, m, u, v, p)
  {
    forall j :: 1 <= j <= m && j != hole && p[j] != 0 ==> 1 <= p[j] <= n && Slack(mat, u, v, p[j], j) == 0.0
  }

  /** Column potentials are never positive, and zero on columns that hold no row. */
  ghost predicate ColumnPotentials(v: seq<real>, p: seq<int>, m: nat)
    requires |v| == m + 1 && |p| == m + 1
  {
    && (forall j :: 1 <= j <= m ==> v[j] <= 0.0)
    && (forall j :: 1 <= j <= m && p[j] == 0 ==> v[j] == 0.0)
  }

  /** What holds between two insertions: rows 1..i are matched and the potentials certify it. */
  ghost predicate Certified(mat: seq<seq<real>>, n: nat, m: nat, u: seq<real>, v: seq<real>, p: seq<int>, i: int)
  {
    && Sized(mat, n, m, u, v, p)
    && 0 <= i <= n
    && Holds(p, 0, i)
    && Feasible(mat, n, m, u, v, i)
    && Tight(mat, n, m, u, v, p, 0)
    && ColumnPotentials(v, p, m)
  }

  /** Bounds that keep every reduced cost below the sentinel. */
  ghost predicate Ranged(u: seq<real>, v: seq<real>, n: nat, m: nat, i: int, lo: real, hi: real)
    requires |u| == n + 1 && |v| == m + 1 && 0 <= i <= n
  {
    && (forall r :: 1 <= r <= i ==> lo <= u[r])
    && (forall r :: i < r <= n ==> u[r] == 0.0)
    && (forall j :: 1 <= j <= m ==> -(i as real) * (hi - lo) <= v[j])
  }

  // ---------------------------------------------------------------- the alternating tree

  /**
    The columns reached so far while inserting row i, in the order they were scanned. Each but the
    first was reached over a tight edge from the row held by an earlier column of the order.
  */
  ghost predicate IsTree(mat: seq<seq<real>>, n: nat, m: nat, u: seq<real>, v: seq<real>, p: seq<int>, way: seq<int>, order: seq<int>)
    requires Sized(mat, n, m, u, v, p) && |way| == m + 1
  {
    && (forall t :: 0 <= t < |order| ==> 0 <= order[t] <= m && 1 <= p[order[t]] <= n)
    && (forall s, t :: 0 <= s < t < |order| ==> order[s] != order[t])
    && (order != [] ==> order[0] == 0)
    && (forall t :: 1 <= t < |order| ==> ReachedFrom(mat, n, m, u, v, p, way, order[..t], order[t]))
  }

  /** Column j hangs below a column of `earlier` on a tight edge. */
  ghost predicate ReachedFrom(mat: seq<seq<real>>, n: nat, m: nat, u: seq<real>, v: seq<real>, p: seq<int>, way: seq<int>, earlier: seq<int>, j: int)
    requires Sized(mat, n, m, u, v, p) && |way| == m + 1
  {
    && 1 <= j <= m
    && way[j] in earlier
    && 0 <= way[j] <= m
    && 1 <= p[way[j]] <= n
    && Slack(mat, u, v, p[way[j]], j) == 0.0
  }

  /** For a column outside the tree, minv[j] is its least slack against the tree's rows, attained at way[j]. */
  ghost predicate Frontier(mat: seq<seq<real>>, n: nat, m: nat, u: seq<real>, v: seq<real>, p: seq<int>, way: seq<int>, minv: seq<real>, order: seq<int>)
    requires Sized(mat, n, m, u, v, p) && |way| == m + 1 && |minv| == m + 1
    requires IsTree(mat, n, m, u, v, p, way, order)
  {
    forall j :: 1 <= j <= m && j !in order ==>
      && way[j] in order
      && minv[j] == Slack(mat, u, v, p[way[j]], j)
      && (forall t :: 0 <= t < |order| ==> minv[j] <= Slack(mat, u, v, p[order[t]], j))
  }

  // ---------------------------------------------------------------- augmentation

  /** Handing the row of column j1 over to the hole moves the hole. */
  lemma MoveHole(p: seq<int>, j0: int, j1: int, i: int)
    requires 0 <= j0 < |p| && 0 <= j1 < |p| && j0 != j1
    requires Holds(p, j0, i)
    ensures Holds(p[j0 := p[j1]], j1, i)
  {
    var q := p[j0 := p[j1]];
    forall r | 1 <= r <= i
      ensures Held(q, j1, r)
    {
      assert Held(p, j0, r);
      var j :| 0 <= j < |p| && j != j0 && p[j] == r;
      if j == j1 {
        assert q[j0] == r;
      } else {
        assert q[j] == r;
      }
    }
  }

  /** The path columns before position `pos` still hold their rows; the column at `pos` is the hole. */
  ghost predicate Shifting(mat: seq<seq<real>>, n: nat, m: nat, u: seq<real>, v: seq<real>, before: seq<int>, p: seq<int>,
                           order: seq<int>, free: int, i: int, j0: int, pos: nat)
    requires Sized(mat, n, m, u, v, before)
  {
    && Sized(mat, n, m, u, v, p)
    && pos <= |order|
    && j0 == (if pos == |order| then free else order[pos])
    && 0 <= j0 <= m
    && (forall t :: 0 <= t < pos ==> 0 <= order[t] <= m && p[order[t]] == before[order[t]])
    && (forall j :: 0 <= j <= m && before[j] != 0 ==> p[j] != 0)
    && Holds(p, j0, i)
    && Tight(mat, n, m, u, v, p, j0)
  }

  /** The column above the hole in the tree stands earlier in the order. */
  lemma EarlierInOrder(mat: seq<seq<real>>, n: nat, m: nat, u: seq<real>, v: seq<real>, p: seq<int>, way: seq<int>,
                       order: seq<int>, free: int, pos: nat)
    returns (s: nat)
    requires Sized(mat, n, m, u, v, p) && |way| == m + 1
    requires IsTree(mat, n, m, u, v, p, way, order) && order != []
    requires ReachedFrom(mat, n, m, u, v, p, way, order, free)
    requires pos <= |order|
    requires pos == |order| || order[pos] != 0
    ensures var j0 := if pos == |order| then free else order[pos];
            && ReachedFrom(mat, n, m, u, v, p, way, order[..pos], j0)
            && s < pos && order[s] == way[j0]
  {
    var j0 := if pos == |order| then free else order[pos];
    assert order[..|order|] == order;
    assert ReachedFrom(mat, n, m, u, v, p, way, order[..pos], j0);
    s :| 0 <= s < pos && order[..pos][s] == way[j0];
  }

  lemma MoveTight(mat: seq<seq<real>>, n: nat, m: nat, u: seq<real>, v: seq<real>, p: seq<int>, j0: int, j1: int)
    requires Sized(mat, n, m, u, v, p)
    requires 1 <= j0 <= m && 0 <= j1 <= m && j0 != j1
    requires Tight(mat, n, m, u, v, p, j0)
    requires 1 <= p[j1] <= n && Slack(mat, u, v, p[j1], j0) == 0.0
    ensures Tight(mat, n, m, u, v, p[j0 := p[j1]], j1)
  {
  }

  lemma ShiftStep(mat: seq<seq<real>>, n: nat, m: nat, u: seq<real>, v: seq<real>, before: seq<int>, p: seq<int>, way: seq<int>,
                  order: seq<int>, free: int, i: int, j0: int, pos: nat)
    returns (s: nat)
    requires Sized(mat, n, m, u, v, before) && |way| == m + 1
    requires IsTree(mat, n, m, u, v, before, way, order) && order != []
    requires free !in order && ReachedFrom(mat, n, m, u, v, before, way, order, free)
    requires Shifting(mat, n, m, u, v, before, p, order, free, i, j0, pos) && j0 != 0
    ensures s < pos && 0 <= way[j0] <= m
    ensures Shifting(mat, n, m, u, v, before, p[j0 := p[way[j0]]], order, free, i, way[j0], s)
  {
    s := EarlierInOrder(mat, n, m, u, v, before, way, order, free, pos);
    var j1 := way[j0];
    assert p[j1] == before[j1];
    assert j0 != j1;
    MoveHole(p, j0, j1, i);
    MoveTight(mat, n, m, u, v, p, j0, j1);
    var q := p[j0 := p[j1]];
    forall t | 0 <= t < s
      ensures 0 <= order[t] <= m && q[order[t]] == before[order[t]]
    {
      assert order[t] != j0;
    }
    assert before[j1] != 0;
  }

  /** Shifts the rows along the tree path that ends in the free column `free`. */
  method Augment(p: array<int>, way: array<int>, free: int, i: int,
                 ghost mat: seq<seq<real>>, ghost n: nat, ghost m: nat, ghost u: seq<real>, ghost v: seq<real>, ghost order: seq<int>)
    requires p != way
    requires way.Length == m + 1
    requires Sized(mat, n, m, u, v, p[..])
    requires IsTree(mat, n, m, u, v, p[..], way[..], order) && order != []
    requires free !in order && ReachedFrom(mat, n, m, u, v, p[..], way[..], order, free)
    requires Shifting(mat, n, m, u, v, p[..], p[..], order, free, i, free, |order|)
    modifies p
    ensures Shifting(mat, n, m, u, v, old(p[..]), p[..], order, free, i, 0, 0)
  {
    ghost var before := p[..];
    ghost var pos: nat := |order|;
    var j0 := free;
    while j0 != 0
      invariant way[..] == old(way[..])
      invariant Shifting(mat, n, m, u, v, before, p[..], order, free, i, j0, pos)
      decreases pos
    {
      ghost var s := ShiftStep(mat, n, m, u, v, before, p[..], way[..], order, free, i, j0, pos);
      ghost var q := p[..][j0 := p[way[j0]]];
      var j1 := way[j0];
      p[j0] := p[j1];
      assert p[..] == q;
      j0 := j1;
      pos := s;
    }
    assert pos == 0;
  }

  // ---------------------------------------------------------------- growing the tree by one column

  /** Some column of the tree holds row r. */
  ghost predicate TreeRow(p: seq<int>, order: seq<int>, r: int)
  {
    exists t :: 0 <= t < |order| && 0 <= order[t] < |p| && p[order[t]] == r
  }

  /** While row i is being inserted: the matching and duals of rows 1..i-1, and the tree grown from column 0. */
  ghost predicate Growing(mat: seq<seq<real>>, n: nat, m: nat, i: int, u: seq<real>, v: seq<real>, p: seq<int>, way: seq<int>, order: seq<int>)
  {
    && Sized(mat, n, m, u, v, p)
    && |way| == m + 1
    && 1 <= i <= n
    && p[0] == i
    && Holds(p, 0, i - 1)
    && Tight(mat, n, m, u, v, p, 0)
    && ColumnPotentials(v, p, m)
    && IsTree(mat, n, m, u, v, p, way, order)
  }

  /** Rows 1..i-1 are feasible, and row i too once its potential has been set. */
  ghost predicate GrowingDuals(mat: seq<seq<real>>, n: nat, m: nat, i: int, u: seq<real>, v: seq<real>, order: seq<int>)
    requires Shape(mat, n, m) && |u| == n + 1 && |v| == m + 1 && 1 <= i <= n
  {
    if order == [] then Feasible(mat, n, m, u, v, i - 1) else Feasible(mat, n, m, u, v, i)
  }

  ghost predicate GrowingRange(u: seq<real>, v: seq<real>, n: nat, m: nat, i: int, order: seq<int>, lo: real, hi: real)
    requires |u| == n + 1 && |v| == m + 1 && 1 <= i <= n
  {
    && (forall r :: 1 <= r < i ==> lo <= u[r])
    && (forall r :: i < r <= n ==> u[r] == 0.0)
    && (if order == [] then u[i] == 0.0 else lo <= u[i])
    && (forall j :: 1 <= j <= m ==>
          -((i - 1) as real) * (hi - lo) - (if order == [] then 0.0 else u[i] - lo) <= v[j])
  }

  /** One relaxation pass from column j0, as the inner loop of the solver leaves minv and way. */
  ghost predicate Relaxed(mat: seq<seq<real>>, n: nat, m: nat, u: seq<real>, v: seq<real>, p: seq<int>, order: seq<int>, j0: int,
                          minv: seq<real>, way: seq<int>, minv': seq<real>, way': seq<int>)
    requires Sized(mat, n, m, u, v, p) && 0 <= j0 <= m && 1 <= p[j0] <= n
  {
    && |minv| == |minv'| == |way| == |way'| == m + 1
    && (forall j :: 0 <= j <= m && (j == 0 || j in order || j == j0) ==> minv'[j] == minv[j] && way'[j] == way[j])
    && (forall j :: 1 <= j <= m && j !in order && j != j0 ==>
          if Slack(mat, u, v, p[j0], j) < minv[j]
          then minv'[j] == Slack(mat, u, v, p[j0], j) && way'[j] == j0
          else minv'[j] == minv[j] && way'[j] == way[j])
  }

  /** The least potential update that makes a new edge tight. */
  ghost predicate IsDelta(m: nat, minv: seq<real>, order: seq<int>, delta: real, j1: int)
    requires |minv| == m + 1
  {
    && (forall j :: 1 <= j <= m && j !in order ==> delta <= minv[j])
    && delta <= INF
    && (delta < INF ==> 1 <= j1 <= m && j1 !in order && minv[j1] == delta)
  }

  ghost predicate Shifted(n: nat, m: nat, p: seq<int>, order: seq<int>, delta: real,
                          u: seq<real>, v: seq<real>, minv: seq<real>, u': seq<real>, v': seq<real>, minv': seq<real>)
  {
    && |u| == |u'| == n + 1
    && |v| == |v'| == |minv| == |minv'| == m + 1
    && (forall r :: 0 <= r <= n ==> u'[r] == if TreeRow(p, order, r) then u[r] + delta else u[r])
    && (forall j :: 0 <= j <= m ==> v'[j] == if j in order then v[j] - delta else v[j])
    && (forall j :: 0 <= j <= m ==> minv'[j] == if j in order then minv[j] else minv[j] - delta)
  }

  lemma HeldInRange(p: seq<int>, i: int, j: int)
    requires Holds(p, 0, i - 1) && 0 <= j < |p| && p[0] == i >= 1 && p[j] != 0
    ensures 1 <= p[j] <= i
  {
  }

  /** The tree with the column about to be scanned. */
  lemma ExtendTree(mat: seq<seq<real>>, n: nat, m: nat, i: int, u: seq<real>, v: seq<real>, p: seq<int>, way: seq<int>, order: seq<int>, j0: int)
    requires Growing(mat, n, m, i, u, v, p, way, order)
    requires 0 <= j0 <= m && j0 !in order && p[j0] != 0
    requires order == [] ==> j0 == 0
    requires order != [] ==> ReachedFrom(mat, n, m, u, v, p, way, order, j0)
    ensures IsTree(mat, n, m, u, v, p, way, order + [j0])
  {
    hide Holds, Tight, ColumnPotentials, ReachedFrom;
    var next := order + [j0];
    HeldInRange(p, i, j0);
    forall t | 1 <= t < |next|
      ensures ReachedFrom(mat, n, m, u, v, p, way, next[..t], next[t])
    {
      if t < |order| {
        assert next[..t] == order[..t];
      } else {
        assert next[..t] == order;
      }
    }
  }

  /** The tree does not depend on the `way` entries of columns outside it. */
  lemma TreeKeepsWay(mat: seq<seq<real>>, n: nat, m: nat, u: seq<real>, v: seq<real>, p: seq<int>, way: seq<int>, way': seq<int>, order: seq<int>)
    requires Sized(mat, n, m, u, v, p) && |way| == |way'| == m + 1
    requires IsTree(mat, n, m, u, v, p, way, order)
    requires forall j :: 0 <= j <= m && j in order ==> way'[j] == way[j]
    ensures IsTree(mat, n, m, u, v, p, way', order)
  {
    forall t | 1 <= t < |order|
      ensures ReachedFrom(mat, n, m, u, v, p, way', order[..t], order[t])
    {
      assert ReachedFrom(mat, n, m, u, v, p, way, order[..t], order[t]);
    }
  }

  /** Relaxing from the new column re-establishes the frontier for the larger tree. */
  lemma FrontierAfterRelax(mat: seq<seq<real>>, n: nat, m: nat, i: int, u: seq<real>, v: seq<real>, p: seq<int>, order: seq<int>, j0: int,
                           minv: seq<real>, way: seq<int>, minv': seq<real>, way': seq<int>)
    requires Growing(mat, n, m, i, u, v, p, way, order)
    requires 0 <= j0 <= m && j0 !in order && 1 <= p[j0] <= n
    requires Relaxed(mat, n, m, u, v, p, order, j0, minv, way, minv', way')
    requires order != [] ==> Frontier(mat, n, m, u, v, p, way, minv, order)
    requires order == [] ==> forall j :: 1 <= j <= m ==> minv[j] == INF
    requires forall j :: 1 <= j <= m ==> Slack(mat, u, v, p[j0], j) < INF
    requires IsTree(mat, n, m, u, v, p, way', order + [j0])
    ensures Frontier(mat, n, m, u, v, p, way', minv', order + [j0])
  {
    hide Holds, Tight, ColumnPotentials, ReachedFrom;
    var next := order + [j0];
    forall j | 1 <= j <= m && j !in next
      ensures way'[j] in next
      ensures minv'[j] == Slack(mat, u, v, p[way'[j]], j)
      ensures forall t :: 0 <= t < |next| ==> minv'[j] <= Slack(mat, u, v, p[next[t]], j)
    {
      assert j !in order && j != j0;
      assert j0 == next[|order|];
      if order != [] {
        assert way[j] in order;
        assert way[j] in next;
      }
    }
  }

  // ---------------------------------------------------------------- the potential update

  lemma TreeRowOf(p: seq<int>, order: seq<int>, i: int, j: int)
    requires Holds(p, 0, i - 1) && 0 < |p| && p[0] == i
    requires forall t :: 0 <= t < |order| ==> 0 <= order[t] < |p| && p[order[t]] != 0
    requires 0 <= j < |p| && p[j] != 0
    ensures TreeRow(p, order, p[j]) <==> j in order
  {
    if TreeRow(p, order, p[j]) {
      var t :| 0 <= t < |order| && 0 <= order[t] < |p| && p[order[t]] == p[j];
      assert order[t] == j;
    }
    if j in order {
      var t :| 0 <= t < |order| && order[t] == j;
      assert p[order[t]] == p[j];
    }
  }

  /** A held edge keeps its slack: its row and its column are both in the tree, or neither is. */
  lemma ShiftKeepsHeldSlack(mat: seq<seq<real>>, n: nat, m: nat, i: int, u: seq<real>, v: seq<real>, p: seq<int>, way: seq<int>, order: seq<int>,
                            delta: real, minv: seq<real>, u': seq<real>, v': seq<real>, minv': seq<real>)
    requires Growing(mat, n, m, i, u, v, p, way, order)
    requires Shifted(n, m, p, order, delta, u, v, minv, u', v', minv')
    ensures Sized(mat, n, m, u', v', p)
    ensures Tight(mat, n, m, u', v', p, 0)
    ensures IsTree(mat, n, m, u', v', p, way, order)
  {
    hide ColumnPotentials;
    forall j | 1 <= j <= m && p[j] != 0
      ensures 1 <= p[j] <= n && Slack(mat, u', v', p[j], j) == 0.0
    {
      TreeRowOf(p, order, i, j);
    }
    forall t | 1 <= t < |order|
      ensures ReachedFrom(mat, n, m, u', v', p, way, order[..t], order[t])
    {
      assert ReachedFrom(mat, n, m, u, v, p, way, order[..t], order[t]);
      TreeRowOf(p, order, i, way[order[t]]);
    }
  }

  lemma ShiftKeepsFrontier(mat: seq<seq<real>>, n: nat, m: nat, i: int, u: seq<real>, v: seq<real>, p: seq<int>, way: seq<int>, order: seq<int>,
                           delta: real, minv: seq<real>, u': seq<real>, v': seq<real>, minv': seq<real>)
    requires Growing(mat, n, m, i, u, v, p, way, order)
    requires |minv| == m + 1 && Frontier(mat, n, m, u, v, p, way, minv, order)
    requires Shifted(n, m, p, order, delta, u, v, minv, u', v', minv')
    requires Sized(mat, n, m, u', v', p) && IsTree(mat, n, m, u', v', p, way, order)
    ensures Frontier(mat, n, m, u', v', p, way, minv', order)
  {
    hide Holds, Tight, ColumnPotentials, ReachedFrom;
    forall j | 1 <= j <= m && j !in order
      ensures way[j] in order
      ensures minv'[j] == Slack(mat, u', v', p[way[j]], j)
      ensures forall t :: 0 <= t < |order| ==> minv'[j] <= Slack(mat, u', v', p[order[t]], j)
    {
      forall t | 0 <= t < |order|
        ensures Slack(mat, u', v', p[order[t]], j) == Slack(mat, u, v, p[order[t]], j) - delta
      {
        assert TreeRow(p, order, p[order[t]]);
      }
    }
  }

  lemma ShiftKeepsFeasible(mat: seq<seq<real>>, n: nat, m: nat, i: int, u: seq<real>, v: seq<real>, p: seq<int>, way: seq<int>, order: seq<int>,
                           delta: real, minv: seq<real>, u': seq<real>, v': seq<real>, minv': seq<real>)
    requires Growing(mat, n, m, i, u, v, p, way, order) && order != []
    requires |minv| == m + 1 && Frontier(mat, n, m, u, v, p, way, minv, order)
    requires Shifted(n, m, p, order, delta, u, v, minv, u', v', minv')
    requires forall j :: 1 <= j <= m && j !in order ==> delta <= minv[j]
    requires if |order| == 1 then Feasible(mat, n, m, u, v, i - 1) else Feasible(mat, n, m, u, v, i) && delta >= 0.0
    ensures Feasible(mat, n, m, u', v', i)
  {
    hide Tight, ColumnPotentials, Holds, ReachedFrom;
    forall r, j | 1 <= r <= i && 1 <= j <= m
      ensures Slack(mat, u', v', r, j) >= 0.0
    {
      if TreeRow(p, order, r) && j !in order {
        var t :| 0 <= t < |order| && 0 <= order[t] < |p| && p[order[t]] == r;
        assert minv[j] <= Slack(mat, u, v, p[order[t]], j);
      } else if |order| == 1 {
        assert order[0] == 0;
        assert TreeRow(p, order, p[order[0]]);
        assert j !in order;
        assert r != i;
        assert Slack(mat, u, v, r, j) >= 0.0;
      } else {
        assert Slack(mat, u, v, r, j) >= 0.0;
      }
    }
  }

  lemma ShiftKeepsColumns(n: nat, m: nat, u: seq<real>, v: seq<real>, p: seq<int>, order: seq<int>,
                          delta: real, minv: seq<real>, u': seq<real>, v': seq<real>, minv': seq<real>)
    requires |v| == |p| == m + 1 && ColumnPotentials(v, p, m)
    requires Shifted(n, m, p, order, delta, u, v, minv, u', v', minv')
    requires forall t :: 0 <= t < |order| ==> 0 <= order[t] <= m && p[order[t]] != 0
    requires order != [] && order[0] == 0
    requires |order| == 1 || delta >= 0.0
    ensures ColumnPotentials(v', p, m)
  {
  }

  lemma ShiftKeepsRange(mat: seq<seq<real>>, n: nat, m: nat, i: int, u: seq<real>, v: seq<real>, p: seq<int>, way: seq<int>, order: seq<int>,
                        delta: real, minv: seq<real>, u': seq<real>, v': seq<real>, minv': seq<real>, lo: real, hi: real)
    requires Growing(mat, n, m, i, u, v, p, way, order) && order != []
    requires Shifted(n, m, p, order, delta, u, v, minv, u', v', minv')
    requires GrowingRange(u, v, n, m, i, order[..|order| - 1], lo, hi)
    requires if |order| == 1 then delta >= lo else delta >= 0.0
    ensures GrowingRange(u', v', n, m, i, order, lo, hi)
  {
    assert TreeRow(p, order, i) by {
      assert p[order[0]] == i;
    }
    forall r | 1 <= r < i
      ensures lo <= u'[r]
    {
      if TreeRow(p, order, r) && |order| == 1 {
        assert false;
      }
    }
    forall r | i < r <= n
      ensures u'[r] == 0.0
    {
      assert !TreeRow(p, order, r);
    }
  }

  // ---------------------------------------------------------------- reduced costs stay below the sentinel

  /** With fewer rows held than columns, some column is free. */
  lemma SomeColumnFree(p: seq<int>, m: nat, i: int) returns (j: int)
    requires |p| == m + 1 && 0 <= i < m
    requires Holds(p, 0, i)
    ensures 1 <= j <= m && p[j] == 0
  {
    if forall k :: 1 <= k <= m ==> p[k] != 0 {
      var a := seq(m, k requires 0 <= k < m => p[k + 1] - 1);
      assert IsAssignment(a, m, i);
      AllRowsMatched(a, m);
      HitCount(a, m, i, m);
      assert HitColumns(a, m) <= Range(i);
      SubsetSize(HitColumns(a, m), Range(i));
      assert false;
    }
    j :| 1 <= j <= m && p[j] == 0;
  }

  ghost predicate Costs(mat: seq<seq<real>>, n: nat, m: nat, lo: real, hi: real)
    requires Rectangular(mat, n, m)
  {
    forall i, j :: 0 <= i < n && 0 <= j < m ==> lo <= mat[i][j] <= hi
  }

  lemma ScaleMonotone(a: int, b: int, d: real)
    requires a <= b && d >= 0.0
    ensures (a as real) * d <= (b as real) * d
  {
  }

  lemma ScaleStep(a: int, d: real)
    ensures ((a + 1) as real) * d == (a as real) * d + d
    ensures -(a as real) * d == -((a as real) * d)
  {
  }

  lemma RowPotentialAtMost(mat: seq<seq<real>>, n: nat, m: nat, i: int, u: seq<real>, v: seq<real>, p: seq<int>, way: seq<int>, order: seq<int>, lo: real, hi: real)
    requires Growing(mat, n, m, i, u, v, p, way, order)
    requires Feasible(mat, n, m, u, v, i)
    requires Costs(mat, n, m, lo, hi)
    ensures u[i] <= hi
  {
    var free := SomeColumnFree(p, m, i - 1);
    assert Slack(mat, u, v, i, free) >= 0.0;
    assert mat[i - 1][free - 1] <= hi;
  }

  lemma SentinelArithmetic(i: int, n: int, lo: real, hi: real, c: real, ur: real, vj: real)
    requires 1 <= i <= n && lo <= 0.0 <= hi
    requires ((n + 1) as real) * (hi - lo) < INF
    requires c <= hi && lo <= ur && -((i - 1) as real) * (hi - lo) - (hi - lo) <= vj
    ensures c - ur - vj < INF
  {
    ScaleStep(i - 1, hi - lo);
    ScaleStep(i, hi - lo);
    ScaleMonotone(i + 1, n + 1, hi - lo);
  }

  /** Every reduced cost the solver computes is below the sentinel, so every column outside the tree gets reached. */
  lemma SlackBelowSentinel(mat: seq<seq<real>>, n: nat, m: nat, i: int, u: seq<real>, v: seq<real>, p: seq<int>, way: seq<int>, order: seq<int>, lo: real, hi: real, r: int, j: int)
    requires Growing(mat, n, m, i, u, v, p, way, order)
    requires GrowingDuals(mat, n, m, i, u, v, order)
    requires GrowingRange(u, v, n, m, i, order, lo, hi)
    requires Costs(mat, n, m, lo, hi) && lo <= 0.0 <= hi
    requires ((n + 1) as real) * (hi - lo) < INF
    requires 1 <= r <= i && 1 <= j <= m
    ensures Slack(mat, u, v, r, j) < INF
  {
    hide Holds, Tight, ColumnPotentials, IsTree;
    if order != [] {
      RowPotentialAtMost(mat, n, m, i, u, v, p, way, order, lo, hi);
    }
    assert lo <= mat[r - 1][j - 1] <= hi;
    SentinelArithmetic(i, n, lo, hi, mat[r - 1][j - 1], u[r], v[j]);
  }

  // ---------------------------------------------------------------- one round of the insertion loop

  /** The state each time the insertion loop is about to scan column j0, or to stop because j0 is free. */
  ghost predicate AtScan(mat: seq<seq<real>>, n: nat, m: nat, i: int, lo: real, hi: real,
                         u: seq<real>, v: seq<real>, p: seq<int>, way: seq<int>, minv: seq<real>, order: seq<int>, j0: int)
  {
    && Growing(mat, n, m, i, u, v, p, way, order)
    && GrowingDuals(mat, n, m, i, u, v, order)
    && GrowingRange(u, v, n, m, i, order, lo, hi)
    && |minv| == m + 1
    && 0 <= j0 <= m
    && j0 !in order
    && (order == [] ==> j0 == 0 && forall j :: 1 <= j <= m ==> minv[j] == INF)
    && (order != [] ==>
          && ReachedFrom(mat, n, m, u, v, p, way, order, j0)
          && Frontier(mat, n, m, u, v, p, way, minv, order))
  }

  ghost predicate CostsBelowSentinel(mat: seq<seq<real>>, n: nat, m: nat, lo: real, hi: real)
  {
    && Rectangular(mat, n, m)
    && Costs(mat, n, m, lo, hi)
    && lo <= 0.0 <= hi
    && ((n + 1) as real) * (hi - lo) < INF
  }

  /** Between the relaxation of column j0 and the potential update: j0 is in the tree and delta is chosen. */
  ghost predicate AtShift(mat: seq<seq<real>>, n: nat, m: nat, i: int, lo: real, hi: real, u: seq<real>, v: seq<real>, p: seq<int>,
                          way: seq<int>, minv: seq<real>, order: seq<int>, j0: int, delta: real, j1: int)
  {
    && Growing(mat, n, m, i, u, v, p, way, order + [j0])
    && |minv| == m + 1
    && Frontier(mat, n, m, u, v, p, way, minv, order + [j0])
    && GrowingDuals(mat, n, m, i, u, v, order)
    && GrowingRange(u, v, n, m, i, order, lo, hi)
    && IsDelta(m, minv, order + [j0], delta, j1)
    && delta < INF
    && (if order == [] then lo <= delta else 0.0 <= delta)
  }

  lemma AfterRelax(mat: seq<seq<real>>, n: nat, m: nat, i: int, lo: real, hi: real, u: seq<real>, v: seq<real>, p: seq<int>,
                   way: seq<int>, minv: seq<real>, order: seq<int>, j0: int, way': seq<int>, minv': seq<real>, delta: real, j1: int)
    requires CostsBelowSentinel(mat, n, m, lo, hi)
    requires AtScan(mat, n, m, i, lo, hi, u, v, p, way, minv, order, j0) && p[j0] != 0
    requires 1 <= p[j0] <= n
    requires Relaxed(mat, n, m, u, v, p, order, j0, minv, way, minv', way')
    requires IsDelta(m, minv', order + [j0], delta, j1)
    ensures AtShift(mat, n, m, i, lo, hi, u, v, p, way', minv', order, j0, delta, j1)
  {
    var next := order + [j0];
    ExtendTree(mat, n, m, i, u, v, p, way, order, j0);
    TreeKeepsWay(mat, n, m, u, v, p, way, way', next);
    assert 1 <= p[j0] <= i;
    forall j | 1 <= j <= m
      ensures Slack(mat, u, v, p[j0], j) < INF
    {
      SlackBelowSentinel(mat, n, m, i, u, v, p, way, order, lo, hi, p[j0], j);
    }
    FrontierAfterRelax(mat, n, m, i, u, v, p, order, j0, minv, way, minv', way');
    DeltaFinite(mat, n, m, i, u, v, p, way', minv', order, j0, delta, j1);
    DeltaAtLeast(mat, n, m, i, lo, hi, u, v, p, way', minv', order, j0, delta, j1);
  }

  lemma DeltaFinite(mat: seq<seq<real>>, n: nat, m: nat, i: int, u: seq<real>, v: seq<real>, p: seq<int>,
                    way: seq<int>, minv: seq<real>, order: seq<int>, j0: int, delta: real, j1: int)
    requires Growing(mat, n, m, i, u, v, p, way, order + [j0])
    requires |minv| == m + 1 && Frontier(mat, n, m, u, v, p, way, minv, order + [j0])
    requires 0 <= j0 <= m && 1 <= p[j0] <= n
    requires forall j :: 1 <= j <= m ==> Slack(mat, u, v, p[j0], j) < INF
    requires IsDelta(m, minv, order + [j0], delta, j1)
    ensures delta < INF
  {
    var next := order + [j0];
    var free := SomeColumnFree(p, m, i - 1);
    assert next[|order|] == j0;
    assert free !in next;
    assert minv[free] <= Slack(mat, u, v, p[next[|order|]], free);
  }

  lemma TreeRowsInserted(mat: seq<seq<real>>, n: nat, m: nat, i: int, u: seq<real>, v: seq<real>, p: seq<int>, way: seq<int>, order: seq<int>)
    requires Growing(mat, n, m, i, u, v, p, way, order)
    ensures forall t :: 0 <= t < |order| ==> 0 <= order[t] <= m && 1 <= p[order[t]] <= i
  {
    hide Tight, ColumnPotentials;
  }

  lemma DeltaAtLeast(mat: seq<seq<real>>, n: nat, m: nat, i: int, lo: real, hi: real, u: seq<real>, v: seq<real>, p: seq<int>,
                     way: seq<int>, minv: seq<real>, order: seq<int>, j0: int, delta: real, j1: int)
    requires Growing(mat, n, m, i, u, v, p, way, order + [j0])
    requires Costs(mat, n, m, lo, hi)
    requires |minv| == m + 1 && Frontier(mat, n, m, u, v, p, way, minv, order + [j0])
    requires order != [] ==> Feasible(mat, n, m, u, v, i)
    requires order == [] ==> j0 == 0 && u[i] == 0.0
    requires IsDelta(m, minv, order + [j0], delta, j1) && delta < INF
    ensures if order == [] then lo <= delta else 0.0 <= delta
  {
    var next := order + [j0];
    TreeRowsInserted(mat, n, m, i, u, v, p, way, next);
    hide Holds, Tight, IsTree;
    var t :| 0 <= t < |next| && next[t] == way[j1];
    var r := p[next[t]];
    assert delta == Slack(mat, u, v, r, j1);
    if order == [] {
      assert r == i;
      assert lo <= mat[i - 1][j1 - 1];
    } else {
      assert 1 <= r <= i;
    }
  }

  lemma AfterShift(mat: seq<seq<real>>, n: nat, m: nat, i: int, lo: real, hi: real, u: seq<real>, v: seq<real>, p: seq<int>, way: seq<int>,
                   minv: seq<real>, order: seq<int>, j0: int, delta: real, j1: int, u': seq<real>, v': seq<real>, minv': seq<real>)
    requires AtShift(mat, n, m, i, lo, hi, u, v, p, way, minv, order, j0, delta, j1)
    requires Shifted(n, m, p, order + [j0], delta, u, v, minv, u', v', minv')
    ensures AtScan(mat, n, m, i, lo, hi, u', v', p, way, minv', order + [j0], j1)
  {
    var next := order + [j0];
    ShiftKeepsHeldSlack(mat, n, m, i, u, v, p, way, next, delta, minv, u', v', minv');
    ShiftKeepsFrontier(mat, n, m, i, u, v, p, way, next, delta, minv, u', v', minv');
    ShiftKeepsFeasible(mat, n, m, i, u, v, p, way, next, delta, minv, u', v', minv');
    ShiftKeepsColumns(n, m, u, v, p, next, delta, minv, u', v', minv');
    assert next[..|next| - 1] == order;
    ShiftKeepsRange(mat, n, m, i, u, v, p, way, next, delta, minv, u', v', minv', lo, hi);
    assert minv'[j1] == 0.0;
    assert ReachedFrom(mat, n, m, u', v', p, way, next, j1);
  }

  // ---------------------------------------------------------------- the solver

  /** The scan of one tree column: relaxes every column outside the tree and picks the cheapest one. */
  method Relax(mat: seq<seq<real>>, u: array<real>, v: array<real>, p: array<int>, used: array<bool>, j0: int,
               minv: array<real>, way: array<int>, ghost n: nat, ghost m: nat, ghost order: seq<int>)
    returns (delta: real, j1: int)
    requires minv != u && minv != v && way != p
    requires Sized(mat, n, m, u[..], v[..], p[..])
    requires minv.Length == way.Length == used.Length == m + 1
    requires 0 <= j0 <= m && 1 <= p[j0] <= n
    requires forall j :: 0 <= j <= m ==> used[j] == (j in order || j == j0)
    modifies minv, way
    ensures Relaxed(mat, n, m, u[..], v[..], p[..], order, j0, old(minv[..]), old(way[..]), minv[..], way[..])
    ensures IsDelta(m, minv[..], order + [j0], delta, j1)
  {
    var i0 := p[j0];
    delta, j1 := INF, 0;
    for j := 1 to minv.Length
      invariant forall k :: 0 <= k <= m && (k == 0 || k >= j || used[k]) ==> minv[k] == old(minv[k]) && way[k] == old(way[k])
      invariant forall k :: 1 <= k < j && !used[k] ==>
        if Slack(mat, u[..], v[..], i0, k) < old(minv[k])
        then minv[k] == Slack(mat, u[..], v[..], i0, k) && way[k] == j0
        else minv[k] == old(minv[k]) && way[k] == old(way[k])
      invariant forall k :: 1 <= k < j && !used[k] ==> delta <= minv[k]
      invariant delta <= INF
      invariant delta < INF ==> 1 <= j1 < j && !used[j1] && minv[j1] == delta
    {
      if used[j] {
        continue;
      }
      var cur := mat[i0 - 1][j - 1] - u[i0] - v[j];
      if cur < minv[j] {
        minv[j] := cur;
        way[j] := j0;
      }
      if minv[j] < delta {
        delta := minv[j];
        j1 := j;
      }
    }
  }

  lemma TreeColumnRow(p: seq<int>, order: seq<int>, j: int)
    requires 0 <= j < |p| && j in order
    ensures TreeRow(p, order, p[j])
  {
    var t :| 0 <= t < |order| && order[t] == j;
    assert p[order[t]] == p[j];
  }

  lemma TreeColumn(p: seq<int>, order: seq<int>, r: int) returns (j: int)
    requires TreeRow(p, order, r)
    ensures 0 <= j < |p| && j in order && p[j] == r
  {
    var t :| 0 <= t < |order| && 0 <= order[t] < |p| && p[order[t]] == r;
    j := order[t];
  }

  /** Moves the potentials of the tree by delta. */
  method Shift(u: array<real>, v: array<real>, p: array<int>, used: array<bool>, minv: array<real>, delta: real,
               ghost n: nat, ghost m: nat, ghost order: seq<int>)
    requires u != v && u != minv && v != minv
    requires u.Length == n + 1
    requires v.Length == p.Length == used.Length == minv.Length == m + 1
    requires forall j :: 0 <= j <= m ==> used[j] == (j in order)
    requires forall j :: 0 <= j <= m && used[j] ==> 0 <= p[j] <= n
    requires forall j, k :: 0 <= j < k <= m && used[j] && used[k] ==> p[j] != p[k]
    modifies u, v, minv
    ensures Shifted(n, m, p[..], order, delta, old(u[..]), old(v[..]), old(minv[..]), u[..], v[..], minv[..])
  {
    hide TreeRow;
    for j := 0 to minv.Length
      invariant forall k :: j <= k <= m ==> v[k] == old(v[k]) && minv[k] == old(minv[k])
      invariant forall k :: 0 <= k < j ==> v[k] == if used[k] then old(v[k]) - delta else old(v[k])
      invariant forall k :: 0 <= k < j ==> minv[k] == if used[k] then old(minv[k]) else old(minv[k]) - delta
      invariant forall k :: 0 <= k < j && used[k] ==> u[p[k]] == old(u[p[k]]) + delta
      invariant forall k :: j <= k <= m && used[k] ==> u[p[k]] == old(u[p[k]])
      invariant forall r :: 0 <= r <= n && !TreeRow(p[..], order, r) ==> u[r] == old(u[r])
    {
      if used[j] {
        TreeColumnRow(p[..], order, j);
        u[p[j]] := u[p[j]] + delta;
        v[j] := v[j] - delta;
      } else {
        minv[j] := minv[j] - delta;
      }
    }
    forall r | 0 <= r <= n && TreeRow(p[..], order, r)
      ensures u[r] == old(u[r]) + delta
    {
      var j := TreeColumn(p[..], order, r);
      assert used[j];
    }
  }

  lemma StartScan(mat: seq<seq<real>>, n: nat, m: nat, i: int, lo: real, hi: real, u: seq<real>, v: seq<real>, p: seq<int>, way: seq<int>, minv: seq<real>)
    requires 1 <= i <= n && |way| == |minv| == m + 1
    requires Certified(mat, n, m, u, v, p, i - 1)
    requires Ranged(u, v, n, m, i - 1, lo, hi)
    requires forall j :: 1 <= j <= m ==> minv[j] == INF
    ensures AtScan(mat, n, m, i, lo, hi, u, v, p[0 := i], way, minv, [], 0)
  {
    var q := p[0 := i];
    forall r | 1 <= r <= i - 1
      ensures Held(q, 0, r)
    {
      assert Held(p, 0, r);
      var j :| 0 <= j < |p| && j != 0 && p[j] == r;
      assert q[j] == r;
    }
  }

  /** A free column reached by the tree: the hole to augment from. */
  lemma ReadyToAugment(mat: seq<seq<real>>, n: nat, m: nat, i: int, lo: real, hi: real, u: seq<real>, v: seq<real>, p: seq<int>,
                       way: seq<int>, minv: seq<real>, order: seq<int>, j0: int)
    requires AtScan(mat, n, m, i, lo, hi, u, v, p, way, minv, order, j0) && p[j0] == 0
    ensures order != []
    ensures Shifting(mat, n, m, u, v, p, p, order, j0, i, j0, |order|)
  {
    forall r | 1 <= r <= i
      ensures Held(p, j0, r)
    {
      if r == i {
        assert p[0] == r && 0 != j0;
      } else {
        assert Held(p, 0, r);
        var j :| 0 <= j < |p| && j != 0 && p[j] == r;
        assert j != j0;
      }
    }
  }

  lemma RangeAfterInsertion(n: nat, m: nat, i: int, lo: real, hi: real, u: seq<real>, v: seq<real>, order: seq<int>)
    requires |u| == n + 1 && |v| == m + 1 && 1 <= i <= n && order != []
    requires GrowingRange(u, v, n, m, i, order, lo, hi) && u[i] <= hi
    ensures Ranged(u, v, n, m, i, lo, hi)
  {
    forall j | 1 <= j <= m
      ensures -(i as real) * (hi - lo) <= v[j]
    {
      WiderRange(i, hi - lo, u[i] - lo, v[j]);
    }
  }

  lemma WiderRange(i: int, d: real, more: real, x: real)
    requires more <= d && -((i - 1) as real) * d - more <= x
    ensures -(i as real) * d <= x
  {
    ScaleStep(i - 1, d);
    assert -(i as real) * d == -((i - 1) as real) * d - d;
  }

  lemma RowInserted(mat: seq<seq<real>>, n: nat, m: nat, i: int, lo: real, hi: real, u: seq<real>, v: seq<real>, p: seq<int>,
                    way: seq<int>, minv: seq<real>, order: seq<int>, j0: int, p': seq<int>)
    requires AtScan(mat, n, m, i, lo, hi, u, v, p, way, minv, order, j0) && p[j0] == 0
    requires Costs(mat, n, m, lo, hi)
    requires Shifting(mat, n, m, u, v, p, p', order, j0, i, 0, 0)
    ensures Certified(mat, n, m, u, v, p', i)
    ensures Ranged(u, v, n, m, i, lo, hi)
  {
    RowPotentialAtMost(mat, n, m, i, u, v, p, way, order, lo, hi);
    RangeAfterInsertion(n, m, i, lo, hi, u, v, order);
  }

  lemma TreeRowsDistinct(mat: seq<seq<real>>, n: nat, m: nat, i: int, u: seq<real>, v: seq<real>, p: seq<int>, way: seq<int>, order: seq<int>)
    requires Growing(mat, n, m, i, u, v, p, way, order)
    ensures forall j :: 0 <= j <= m && j in order ==> 1 <= p[j] <= n
    ensures forall j, k :: 0 <= j < k <= m && j in order && k in order ==> p[j] != p[k]
  {
    forall j | 0 <= j <= m && j in order
      ensures 1 <= p[j] <= n
    {
      var t :| 0 <= t < |order| && order[t] == j;
    }
  }

  lemma ReadyToShift(mat: seq<seq<real>>, n: nat, m: nat, i: int, lo: real, hi: real, u: seq<real>, v: seq<real>, p: seq<int>,
                     way: seq<int>, minv: seq<real>, order: seq<int>, j0: int, delta: real, j1: int)
    requires AtShift(mat, n, m, i, lo, hi, u, v, p, way, minv, order, j0, delta, j1)
    ensures |u| == n + 1 && |v| == |p| == |minv| == m + 1
    ensures forall j :: 0 <= j <= m && j in order + [j0] ==> 1 <= p[j] <= n
    ensures forall j, k :: 0 <= j < k <= m && j in order + [j0] && k in order + [j0] ==> p[j] != p[k]
  {
    hide GrowingDuals, GrowingRange, IsDelta, Frontier;
    TreeRowsDistinct(mat, n, m, i, u, v, p, way, order + [j0]);
  }

  /** The tree has at most m columns before it grows again. */
  lemma TreeSize(mat: seq<seq<real>>, n: nat, m: nat, i: int, u: seq<real>, v: seq<real>, p: seq<int>, way: seq<int>, order: seq<int>, j0: int)
    requires Growing(mat, n, m, i, u, v, p, way, order)
    requires 0 <= j0 <= m && j0 !in order
    ensures |order| < m + 1
  {
    var next := order + [j0];
    assert IsAssignment(next, |next|, m + 1);
    AllRowsMatched(next, |next|);
    HitCount(next, |next|, m + 1, |next|);
    assert HitColumns(next, |next|) <= Range(m + 1);
    SubsetSize(HitColumns(next, |next|), Range(m + 1));
  }

  lemma HeldRow(mat: seq<seq<real>>, n: nat, m: nat, i: int, u: seq<real>, v: seq<real>, p: seq<int>, way: seq<int>, order: seq<int>, j: int)
    requires Growing(mat, n, m, i, u, v, p, way, order)
    requires 0 <= j <= m && p[j] != 0
    ensures 1 <= p[j] <= n
  {
  }

  /** First half of a round: column j0 joins the tree and the columns outside it are relaxed. */
  method RelaxColumn(mat: seq<seq<real>>, i: int, u: array<real>, v: array<real>, p: array<int>, way: array<int>,
                     minv: array<real>, used: array<bool>, j0: int,
                     ghost n: nat, ghost m: nat, ghost lo: real, ghost hi: real, ghost order: seq<int>)
    returns (delta: real, j1: int)
    requires u != v && u != minv && v != minv && p != way
    requires CostsBelowSentinel(mat, n, m, lo, hi)
    requires AtScan(mat, n, m, i, lo, hi, u[..], v[..], p[..], way[..], minv[..], order, j0) && p[j0] != 0
    requires used.Length == m + 1 && forall j :: 0 <= j <= m ==> used[j] == (j in order)
    modifies way, minv, used
    ensures AtShift(mat, n, m, i, lo, hi, u[..], v[..], p[..], way[..], minv[..], order, j0, delta, j1)
    ensures forall j :: 0 <= j <= m ==> used[j] == (j in order + [j0])
  {
    hide Holds, Tight, Feasible, ColumnPotentials, Costs, GrowingDuals, GrowingRange, ReachedFrom, Frontier, Relaxed, IsDelta;
    ghost var us, vs, ps, ways, mins := u[..], v[..], p[..], way[..], minv[..];
    assert 1 <= p[j0] <= n by { HeldRow(mat, n, m, i, us, vs, ps, ways, order, j0); }
    used[j0] := true;
    delta, j1 := Relax(mat, u, v, p, used, j0, minv, way, n, m, order);
    AfterRelax(mat, n, m, i, lo, hi, us, vs, ps, ways, mins, order, j0, way[..], minv[..], delta, j1);
    assert us == u[..] && vs == v[..] && ps == p[..];
  }

  /** Second half of a round: the potentials of the tree move and the next column is chosen. */
  method ShiftTree(mat: seq<seq<real>>, i: int, u: array<real>, v: array<real>, p: array<int>, way: array<int>,
                   minv: array<real>, used: array<bool>, delta: real,
                   ghost j0: int, ghost j1: int, ghost n: nat, ghost m: nat, ghost lo: real, ghost hi: real, ghost order: seq<int>)
    requires u != v && u != minv && v != minv && p != way
    requires AtShift(mat, n, m, i, lo, hi, u[..], v[..], p[..], way[..], minv[..], order, j0, delta, j1)
    requires used.Length == m + 1 && forall j :: 0 <= j <= m ==> used[j] == (j in order + [j0])
    modifies u, v, minv
    ensures AtScan(mat, n, m, i, lo, hi, u[..], v[..], p[..], way[..], minv[..], order + [j0], j1)
  {
    hide AtShift, AtScan, Shifted;
    ghost var us, vs, ps, ways, mins := u[..], v[..], p[..], way[..], minv[..];
    ReadyToShift(mat, n, m, i, lo, hi, us, vs, ps, ways, mins, order, j0, delta, j1);
    Shift(u, v, p, used, minv, delta, n, m, order + [j0]);
    AfterShift(mat, n, m, i, lo, hi, us, vs, ps, ways, mins, order, j0, delta, j1, u[..], v[..], minv[..]);
    assert ps == p[..] && ways == way[..];
  }

  /** Inserts row i: grows the tree until a free column is reached, then augments along the tree path. */
  method InsertRow(mat: seq<seq<real>>, i: int, u: array<real>, v: array<real>, p: array<int>, way: array<int>,
                   ghost n: nat, ghost m: nat, ghost lo: real, ghost hi: real)
    requires u != v && p != way
    requires way.Length == m + 1
    requires CostsBelowSentinel(mat, n, m, lo, hi)
    requires 1 <= i <= n
    requires Certified(mat, n, m, u[..], v[..], p[..], i - 1)
    requires Ranged(u[..], v[..], n, m, i - 1, lo, hi)
    modifies u, v, p, way
    ensures Certified(mat, n, m, u[..], v[..], p[..], i)
    ensures Ranged(u[..], v[..], n, m, i, lo, hi)
  {
    hide Holds, Tight, Feasible, ColumnPotentials, Costs, GrowingDuals, GrowingRange, Frontier, IsTree, Ranged, ReachedFrom;
    var j0 := 0;
    var minv := new real[v.Length](_ => INF);
    var used := new bool[v.Length](_ => false);
    ghost var order: seq<int> := [];
    StartScan(mat, n, m, i, lo, hi, u[..], v[..], p[..], way[..], minv[..]);
    ghost var q := p[..][0 := i];
    p[0] := i;
    assert p[..] == q;
    while p[j0] != 0
      invariant p[..] == q && used.Length == m + 1
      invariant AtScan(mat, n, m, i, lo, hi, u[..], v[..], q, way[..], minv[..], order, j0)
      invariant forall j :: 0 <= j <= m ==> used[j] == (j in order)
      decreases m + 1 - |order|
    {
      TreeSize(mat, n, m, i, u[..], v[..], q, way[..], order, j0);
      var delta, j1 := RelaxColumn(mat, i, u, v, p, way, minv, used, j0, n, m, lo, hi, order);
      ShiftTree(mat, i, u, v, p, way, minv, used, delta, j0, j1, n, m, lo, hi, order);
      order := order + [j0];
      j0 := j1;
    }
    ReadyToAugment(mat, n, m, i, lo, hi, u[..], v[..], q, way[..], minv[..], order, j0);
    Augment(p, way, j0, i, mat, n, m, u[..], v[..], order);
    RowInserted(mat, n, m, i, lo, hi, u[..], v[..], q, way[..], minv[..], order, j0, p[..]);
  }

  // ---------------------------------------------------------------- from the final columns to the assignment

  lemma FeasibleIsDualFeasible(mat: seq<seq<real>>, n: nat, m: nat, u: seq<real>, v: seq<real>)
    requires Shape(mat, n, m) && |u| == n + 1 && |v| == m + 1
    requires Feasible(mat, n, m, u, v, n)
    ensures DualFeasible(mat, n, m, u[1..], v[1..])
  {
    forall i, j | 0 <= i < n && 0 <= j < m
      ensures u[1..][i] + v[1..][j] <= mat[i][j]
    {
      assert Slack(mat, u, v, i + 1, j + 1) >= 0.0;
    }
  }

  lemma CompleteIsAssignment(a: seq<int>, rows: nat, cols: nat)
    requires IsComplete(a, rows, cols)
    ensures IsAssignment(a, rows, cols)
  {
  }

  lemma DirectComplete(n: nat, m: nat, p: seq<int>, a: seq<int>)
    requires n <= m && |p| == m + 1
    requires |a| == n && forall r :: 0 <= r < n ==> 0 <= a[r] < m && p[a[r] + 1] == r + 1
    ensures IsComplete(a, n, m)
  {
    AllRowsMatched(a, n);
  }

  /** With all n rows held, reading the columns off row by row gives a certified complete assignment. */
  lemma DirectCertificate(mat: seq<seq<real>>, n: nat, m: nat, u: seq<real>, v: seq<real>, p: seq<int>, a: seq<int>)
    requires Certified(mat, n, m, u, v, p, n)
    requires |a| == n && forall r :: 0 <= r < n ==> 0 <= a[r] < m && p[a[r] + 1] == r + 1
    ensures IsComplete(a, n, m)
    ensures IsCertificate(mat, n, m, a, u[1..], v[1..])
  {
    hide IsComplete;
    DirectComplete(n, m, p, a);
    FeasibleIsDualFeasible(mat, n, m, u, v);
    assert IsAssignment(a, n, m) by { CompleteIsAssignment(a, n, m); }
    forall i | 0 <= i < n && a[i] >= 0
      ensures u[1..][i] + v[1..][a[i]] == mat[i][a[i]]
    {
      assert Slack(mat, u, v, p[a[i] + 1], a[i] + 1) == 0.0;
    }
    forall j | 0 <= j < m && p[j + 1] != 0
      ensures j in HitColumns(a, n)
    {
      var r := p[j + 1] - 1;
      assert p[a[r] + 1] == p[j + 1];
      assert a[r] in HitColumns(a, n);
    }
  }

  ghost predicate IsTranspose(cost: seq<seq<real>>, rows: nat, cols: nat, mat: seq<seq<real>>)
    requires Rectangular(cost, rows, cols)
  {
    && Rectangular(mat, cols, rows)
    && forall i, j :: 0 <= i < rows && 0 <= j < cols ==> mat[j][i] == cost[i][j]
  }

  lemma TransposeCosts(cost: seq<seq<real>>, rows: nat, cols: nat, mat: seq<seq<real>>, lo: real, hi: real)
    requires Rectangular(cost, rows, cols) && IsTranspose(cost, rows, cols, mat)
    requires Costs(cost, rows, cols, lo, hi)
    ensures Costs(mat, cols, rows, lo, hi)
  {
    forall j, i | 0 <= j < cols && 0 <= i < rows
      ensures lo <= mat[j][i] <= hi
    {
      assert mat[j][i] == cost[i][j];
    }
  }

  lemma TransposedComplete(rows: nat, cols: nat, p: seq<int>, a: seq<int>)
    requires rows > cols && |p| == rows + 1
    requires Holds(p, 0, cols)
    requires |a| == rows && forall i :: 0 <= i < rows ==> a[i] == p[i + 1] - 1
    ensures IsComplete(a, rows, cols)
  {
    forall j | 0 <= j < cols
      ensures j in HitColumns(a, rows)
    {
      assert Held(p, 0, j + 1);
      var k :| 0 <= k < |p| && k != 0 && p[k] == j + 1;
      assert a[k - 1] == j;
    }
    assert HitColumns(a, rows) == Range(cols);
    assert IsAssignment(a, rows, cols);
    HitCount(a, rows, cols, rows);
  }

  /** The transposed case: the solver's columns are the rows of the matrix, and the potentials change sides. */
  lemma TransposedCertificate(cost: seq<seq<real>>, rows: nat, cols: nat, mat: seq<seq<real>>, u: seq<real>, v: seq<real>, p: seq<int>, a: seq<int>)
    requires Rectangular(cost, rows, cols) && rows > cols
    requires IsTranspose(cost, rows, cols, mat)
    requires Certified(mat, cols, rows, u, v, p, cols)
    requires |a| == rows && forall i :: 0 <= i < rows ==> a[i] == p[i + 1] - 1
    ensures IsComplete(a, rows, cols)
    ensures IsCertificate(cost, rows, cols, a, v[1..], u[1..])
  {
    hide IsComplete;
    TransposedComplete(rows, cols, p, a);
    assert IsAssignment(a, rows, cols) by { CompleteIsAssignment(a, rows, cols); }
    FeasibleIsDualFeasible(mat, cols, rows, u, v);
    forall i, j | 0 <= i < rows && 0 <= j < cols
      ensures v[1..][i] + u[1..][j] <= cost[i][j]
    {
      assert mat[j][i] == cost[i][j];
    }
    forall i | 0 <= i < rows && a[i] >= 0
      ensures v[1..][i] + u[1..][a[i]] == cost[i][a[i]]
    {
      assert Slack(mat, u, v, p[i + 1], i + 1) == 0.0;
      assert mat[a[i]][i] == cost[i][a[i]];
    }
  }

  /** Inserts every row in turn. */
  method Solve(mat: seq<seq<real>>, n: nat, m: nat, ghost lo: real, ghost hi: real) returns (p: array<int>, ghost u: seq<real>, ghost v: seq<real>)
    requires 1 <= n <= m
    requires CostsBelowSentinel(mat, n, m, lo, hi)
    ensures Certified(mat, n, m, u, v, p[..], n)
  {
    var us := new real[n + 1](_ => 0.0);
    var vs := new real[m + 1](_ => 0.0);
    p := new int[m + 1](_ => 0);
    var way := new int[m + 1](_ => 0);
    for i := 1 to n + 1
      invariant Certified(mat, n, m, us[..], vs[..], p[..], i - 1)
      invariant Ranged(us[..], vs[..], n, m, i - 1, lo, hi)
    {
      InsertRow(mat, i, us, vs, p, way, n, m, lo, hi);
    }
    u, v := us[..], vs[..];
  }

  method Transpose(cost: seq<seq<real>>, rows: nat, cols: nat) returns (mat: seq<seq<real>>)
    requires Rectangular(cost, rows, cols)
    ensures IsTranspose(cost, rows, cols, mat)
  {
    mat := seq(cols, j requires 0 <= j < cols => seq(rows, i requires 0 <= i < rows => cost[i][j]));
  }

  /** Reads the assignment off the solver's columns when it ran on the matrix itself. */
  method ReadDirect(p: array<int>, rows: nat, cols: nat) returns (assignment: seq<int>)
    requires p.Length == cols + 1 && Holds(p[..], 0, rows)
    ensures |assignment| == rows
    ensures forall r :: 0 <= r < rows ==> 0 <= assignment[r] < cols && p[assignment[r] + 1] == r + 1
  {
    ghost var ps := p[..];
    ghost var col := ColumnsOf(ps, rows);
    hide Holds;
    var result := new int[rows](_ => -1);
    for j := 1 to cols + 1
      invariant p[..] == ps
      invariant forall r :: 0 <= r < rows ==> result[r] == if col[r] < j then col[r] - 1 else -1
    {
      RowAt(ps, rows, col, j);
      if p[j] > 0 {
        result[p[j] - 1] := j - 1;
      }
    }
    return result[..];
  }

  lemma ColumnsOf(p: seq<int>, rows: nat) returns (col: seq<int>)
    requires Holds(p, 0, rows)
    ensures |col| == rows && forall r :: 0 <= r < rows ==> 1 <= col[r] < |p| && p[col[r]] == r + 1
  {
    hide Holds;
    col := [];
    while |col| < rows
      invariant |col| <= rows && forall r :: 0 <= r < |col| ==> 1 <= col[r] < |p| && p[col[r]] == r + 1
    {
      var j := ColumnOf(p, rows, |col| + 1);
      col := col + [j];
    }
  }

  lemma RowAt(p: seq<int>, rows: nat, col: seq<int>, j: int)
    requires Holds(p, 0, rows) && 1 <= j < |p|
    requires |col| == rows && forall r :: 0 <= r < rows ==> 1 <= col[r] < |p| && p[col[r]] == r + 1
    ensures 0 <= p[j] <= rows
    ensures p[j] > 0 ==> col[p[j] - 1] == j
    ensures forall r :: 0 <= r < rows && col[r] == j ==> r == p[j] - 1
  {
  }

  lemma ColumnOf(p: seq<int>, i: int, r: int) returns (j: int)
    requires Holds(p, 0, i) && 1 <= r <= i
    ensures 1 <= j < |p| && p[j] == r
  {
    assert Held(p, 0, r);
    j :| 0 <= j < |p| && j != 0 && p[j] == r;
  }

  /** Reads the assignment off the solver's columns when it ran on the transposed matrix. */
  method ReadTransposed(p: array<int>, rows: nat, cols: nat) returns (assignment: seq<int>)
    requires p.Length == rows + 1 && Holds(p[..], 0, cols)
    ensures |assignment| == rows
    ensures forall i :: 0 <= i < rows ==> assignment[i] == p[i + 1] - 1
  {
    var result := new int[rows](_ => -1);
    for j := 1 to rows + 1
      invariant forall k :: 0 <= k < j - 1 ==> result[k] == p[k + 1] - 1
      invariant forall k :: j - 1 <= k < rows ==> result[k] == -1
    {
      assert 0 <= p[..][j];
      var row_t := p[j] - 1;
      if row_t < 0 {
        continue;
      }
      result[j - 1] := row_t;
    }
    return result[..];
  }

  /**
    Assigns columns to rows at minimum total cost, -1 meaning no column. A matrix without rows or
    without columns yields the empty list, whatever the number of rows.
  */
  method HungarianAssignment(cost: seq<seq<real>>, ghost lo: real, ghost hi: real) returns (assignment: seq<int>)
    requires Rectangular(cost, |cost|, Columns(cost))
    requires Costs(cost, |cost|, Columns(cost), lo, hi) && lo <= 0.0 <= hi
    requires ((MinNat(|cost|, Columns(cost)) + 1) as real) * (hi - lo) < INF
    ensures |cost| == 0 || Columns(cost) == 0 ==> assignment == []
    ensures |cost| > 0 && Columns(cost) > 0 ==> IsOptimal(cost, assignment, |cost|, Columns(cost))
  {
    hide Costs, Certified, IsCertificate, IsOptimal, Holds;
    var rows := |cost|;
    var cols := Columns(cost);
    if rows == 0 || cols == 0 {
      return [];
    }
    if rows <= cols {
      var p; ghost var u, v;
      p, u, v := Solve(cost, rows, cols, lo, hi);
      AllRowsHeld(cost, rows, cols, u, v, p[..]);
      assignment := ReadDirect(p, rows, cols);
      DirectCertificate(cost, rows, cols, u, v, p[..], assignment);
      CertificateIsOptimal(cost, rows, cols, assignment, u[1..], v[1..]);
    } else {
      var mat := Transpose(cost, rows, cols);
      TransposeCosts(cost, rows, cols, mat, lo, hi);
      var p; ghost var u, v;
      p, u, v := Solve(mat, cols, rows, lo, hi);
      AllRowsHeld(mat, cols, rows, u, v, p[..]);
      assignment := ReadTransposed(p, rows, cols);
      TransposedCertificate(cost, rows, cols, mat, u, v, p[..], assignment);
      CertificateIsOptimal(cost, rows, cols, assignment, v[1..], u[1..]);
    }
  }

  lemma AllRowsHeld(mat: seq<seq<real>>, n: nat, m: nat, u: seq<real>, v: seq<real>, p: seq<int>)
    requires Certified(mat, n, m, u, v, p, n)
    ensures Sized(mat, n, m, u, v, p) && Holds(p, 0, n)
  {
  }

  function Columns(cost: seq<seq<real>>): nat { if |cost| > 0 then |cost[0]| else 0 }

  function MinNat(a: nat, b: nat): nat { if b < a then b else a }
}
