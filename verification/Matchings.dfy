/**
  Partial one-to-one assignments of rows to columns, their cost, and the duality argument that a
  pair of potentials certifies a minimum-cost assignment.
*/
module Matchings {
  import opened Sets
  import opened Sums

  ghost predicate Rectangular(cost: seq<seq<real>>, rows: nat, cols: nat)
  {
    && |cost| == rows
    && forall i :: 0 <= i < rows ==> |cost[i]| == cols
  }

  /** `a[i]` is the column given to row i, or -1; no column is given twice. */
  ghost predicate IsAssignment(a: seq<int>, rows: nat, cols: nat)
  {
    && |a| == rows
    && (forall i :: 0 <= i < rows ==> -1 <= a[i] < cols)
    && (forall i, k :: 0 <= i < k < rows && a[i] == a[k] ==> a[i] == -1)
  }

  /** The number of rows among the first k that are given a column. */
  function Matched(a: seq<int>, k: nat): (count: nat)
    requires k <= |a|
    ensures count <= k
  {
    if k == 0 then 0 else Matched(a, k - 1) + (if a[k - 1] >= 0 then 1 else 0)
  }

  function Cost(cost: seq<seq<real>>, a: seq<int>, k: nat): real
    requires k <= |a| <= |cost|
    requires forall i :: 0 <= i < |a| ==> a[i] < |cost[i]|
  {
    if k == 0 then 0.0
    else Cost(cost, a, k - 1) + (if a[k - 1] >= 0 then cost[k - 1][a[k - 1]] else 0.0)
  }

  /** An assignment of as many pairs as the matrix admits. */
  ghost predicate IsComplete(a: seq<int>, rows: nat, cols: nat)
  {
    && IsAssignment(a, rows, cols)
    && Matched(a, rows) == if rows <= cols then rows else cols
  }

  /** A complete assignment no other complete assignment undercuts. */
  ghost predicate IsOptimal(cost: seq<seq<real>>, a: seq<int>, rows: nat, cols: nat)
    requires Rectangular(cost, rows, cols)
  {
    && IsComplete(a, rows, cols)
    && forall b :: IsComplete(b, rows, cols) ==> Cost(cost, a, rows) <= Cost(cost, b, rows)
  }

  // ---------------------------------------------------------------- counting

  lemma {:induction false} AllRowsMatched(a: seq<int>, k: nat)
    requires k <= |a|
    ensures Matched(a, k) == k <==> forall i :: 0 <= i < k ==> a[i] >= 0
  {
    if k > 0 {
      AllRowsMatched(a, k - 1);
    }
  }

  ghost function HitColumns(a: seq<int>, k: nat): set<int>
    requires k <= |a|
  {
    set i | 0 <= i < k && a[i] >= 0 :: a[i]
  }

  ghost function Range(n: nat): (r: set<int>)
    ensures forall i :: i in r <==> 0 <= i < n
    ensures |r| == n
  {
    if n == 0 then {} else Range(n - 1) + {n - 1}
  }

  lemma {:induction false} HitCount(a: seq<int>, rows: nat, cols: nat, k: nat)
    requires IsAssignment(a, rows, cols) && k <= rows
    ensures |HitColumns(a, k)| == Matched(a, k)
  {
    if k > 0 {
      HitCount(a, rows, cols, k - 1);
      HitStep(a, rows, cols, k);
    } else {
      assert HitColumns(a, k) == {};
    }
  }

  lemma HitStep(a: seq<int>, rows: nat, cols: nat, k: nat)
    requires IsAssignment(a, rows, cols) && 1 <= k <= rows
    ensures a[k - 1] !in HitColumns(a, k - 1)
    ensures HitColumns(a, k) == HitColumns(a, k - 1) + (if a[k - 1] >= 0 then {a[k - 1]} else {})
  {
    assert a[k - 1] in HitColumns(a, k) || a[k - 1] < 0;
  }

  lemma AllColumnsHit(a: seq<int>, rows: nat, cols: nat)
    requires IsAssignment(a, rows, cols) && Matched(a, rows) == cols
    ensures HitColumns(a, rows) == Range(cols)
  {
    HitCount(a, rows, cols, rows);
    SubsetOfSameSize(HitColumns(a, rows), Range(cols));
  }

  // ---------------------------------------------------------------- duality

  function RowShare(u: seq<real>, a: seq<int>, k: nat): real
    requires k <= |a| == |u|
  {
    if k == 0 then 0.0 else RowShare(u, a, k - 1) + (if a[k - 1] >= 0 then u[k - 1] else 0.0)
  }

  function ColumnShare(v: seq<real>, a: seq<int>, k: nat): real
    requires k <= |a|
    requires forall i :: 0 <= i < |a| ==> a[i] < |v|
  {
    if k == 0 then 0.0 else ColumnShare(v, a, k - 1) + (if a[k - 1] >= 0 then v[a[k - 1]] else 0.0)
  }

  /** The column potentials with those of the columns hit by the first k rows removed. */
  ghost function Unhit(v: seq<real>, a: seq<int>, k: nat): (rest: seq<real>)
    requires k <= |a|
    ensures |rest| == |v|
    ensures forall j :: 0 <= j < |v| ==> rest[j] == if j in HitColumns(a, k) then 0.0 else v[j]
  {
    seq(|v|, j requires 0 <= j < |v| => if j in HitColumns(a, k) then 0.0 else v[j])
  }

  lemma {:induction false} ColumnShareIsRest(v: seq<real>, a: seq<int>, rows: nat, k: nat)
    requires IsAssignment(a, rows, |v|) && k <= rows
    ensures ColumnShare(v, a, k) == Sum(v) - Sum(Unhit(v, a, k))
  {
    if k == 0 {
      assert Unhit(v, a, 0) == v;
    } else {
      ColumnShareIsRest(v, a, rows, k - 1);
      var j := a[k - 1];
      if j >= 0 {
        assert HitColumns(a, k) == HitColumns(a, k - 1) + {j};
        assert Unhit(v, a, k) == Unhit(v, a, k - 1)[j := 0.0];
        assert j !in HitColumns(a, k - 1);
        SumUpdate(Unhit(v, a, k - 1), j, 0.0);
      } else {
        assert HitColumns(a, k) == HitColumns(a, k - 1);
        assert Unhit(v, a, k) == Unhit(v, a, k - 1);
      }
    }
  }

  lemma {:induction false} RowShareIsSum(u: seq<real>, a: seq<int>, k: nat)
    requires k <= |a| == |u|
    ensures (forall i :: 0 <= i < k ==> a[i] >= 0 || u[i] == 0.0) ==> RowShare(u, a, k) == Sum(u[..k])
    ensures (forall i :: 0 <= i < k ==> a[i] >= 0 || u[i] <= 0.0) ==> RowShare(u, a, k) >= Sum(u[..k])
  {
    if k > 0 {
      RowShareIsSum(u, a, k - 1);
      assert u[..k][..k - 1] == u[..k - 1];
    }
  }

  ghost predicate DualFeasible(cost: seq<seq<real>>, rows: nat, cols: nat, u: seq<real>, v: seq<real>)
    requires Rectangular(cost, rows, cols)
  {
    && |u| == rows
    && |v| == cols
    && forall i, j :: 0 <= i < rows && 0 <= j < cols ==> u[i] + v[j] <= cost[i][j]
  }

  lemma {:induction false} CostAboveDual(cost: seq<seq<real>>, rows: nat, cols: nat, u: seq<real>, v: seq<real>, b: seq<int>, k: nat)
    requires Rectangular(cost, rows, cols) && DualFeasible(cost, rows, cols, u, v)
    requires IsAssignment(b, rows, cols) && k <= rows
    ensures Cost(cost, b, k) >= RowShare(u, b, k) + ColumnShare(v, b, k)
  {
    if k > 0 {
      CostAboveDual(cost, rows, cols, u, v, b, k - 1);
    }
  }

  lemma {:induction false} CostEqualsDual(cost: seq<seq<real>>, rows: nat, cols: nat, u: seq<real>, v: seq<real>, a: seq<int>, k: nat)
    requires Rectangular(cost, rows, cols) && |u| == rows && |v| == cols
    requires IsAssignment(a, rows, cols) && k <= rows
    requires forall i :: 0 <= i < rows && a[i] >= 0 ==> u[i] + v[a[i]] == cost[i][a[i]]
    ensures Cost(cost, a, k) == RowShare(u, a, k) + ColumnShare(v, a, k)
  {
    if k > 0 {
      CostEqualsDual(cost, rows, cols, u, v, a, k - 1);
    }
  }

  /**
    Potentials that certify `a`: feasible everywhere, tight on the pairs of `a`; on the longer side
    they are never positive and vanish where `a` leaves the row or column unmatched.
  */
  ghost predicate IsCertificate(cost: seq<seq<real>>, rows: nat, cols: nat, a: seq<int>, u: seq<real>, v: seq<real>)
    requires Rectangular(cost, rows, cols) && IsAssignment(a, rows, cols)
  {
    && DualFeasible(cost, rows, cols, u, v)
    && (forall i :: 0 <= i < rows && a[i] >= 0 ==> u[i] + v[a[i]] == cost[i][a[i]])
    && (rows <= cols ==>
          && (forall j :: 0 <= j < cols ==> v[j] <= 0.0)
          && (forall j :: 0 <= j < cols && j !in HitColumns(a, rows) ==> v[j] == 0.0))
    && (rows > cols ==>
          && (forall i :: 0 <= i < rows ==> u[i] <= 0.0)
          && (forall i :: 0 <= i < rows && a[i] < 0 ==> u[i] == 0.0))
  }

  lemma CertifiedCost(cost: seq<seq<real>>, rows: nat, cols: nat, a: seq<int>, u: seq<real>, v: seq<real>)
    requires Rectangular(cost, rows, cols) && IsComplete(a, rows, cols) && IsCertificate(cost, rows, cols, a, u, v)
    ensures Cost(cost, a, rows) == Sum(u) + Sum(v)
  {
    assert |u| == rows && |v| == cols;
    CostEqualsDual(cost, rows, cols, u, v, a, rows);
    hide DualFeasible, Cost, ColumnShare, RowShare, Sum;
    ColumnShareIsRest(v, a, rows, rows);
    assert Sum(Unhit(v, a, rows)) == 0.0 by {
      if rows > cols {
        AllColumnsHit(a, rows, cols);
      }
      SumZero(Unhit(v, a, rows));
    }
    assert RowShare(u, a, rows) == Sum(u) by {
      AllRowsMatched(a, rows);
      RowShareIsSum(u, a, rows);
      assert u[..rows] == u;
    }
  }

  lemma CompleteCostAboveCertificate(cost: seq<seq<real>>, rows: nat, cols: nat, a: seq<int>, u: seq<real>, v: seq<real>, b: seq<int>)
    requires Rectangular(cost, rows, cols) && IsAssignment(a, rows, cols) && IsCertificate(cost, rows, cols, a, u, v)
    requires IsComplete(b, rows, cols)
    ensures Cost(cost, b, rows) >= Sum(u) + Sum(v)
  {
    assert |u| == rows && |v| == cols;
    hide DualFeasible, Cost, ColumnShare, RowShare, Sum;
    CostAboveDual(cost, rows, cols, u, v, b, rows);
    ColumnShareIsRest(v, b, rows, rows);
    assert Sum(Unhit(v, b, rows)) <= 0.0 by {
      UnhitNonPositive(cost, rows, cols, a, u, v, b);
    }
    assert RowShare(u, b, rows) >= Sum(u) by {
      RowsAboveSum(cost, rows, cols, a, u, v, b);
    }
  }

  lemma UnhitNonPositive(cost: seq<seq<real>>, rows: nat, cols: nat, a: seq<int>, u: seq<real>, v: seq<real>, b: seq<int>)
    requires Rectangular(cost, rows, cols) && IsAssignment(a, rows, cols) && IsCertificate(cost, rows, cols, a, u, v)
    requires IsComplete(b, rows, cols)
    ensures Sum(Unhit(v, b, rows)) <= 0.0
  {
    if rows > cols {
      AllColumnsHit(b, rows, cols);
    }
    SumNonPositive(Unhit(v, b, rows));
  }

  lemma RowsAboveSum(cost: seq<seq<real>>, rows: nat, cols: nat, a: seq<int>, u: seq<real>, v: seq<real>, b: seq<int>)
    requires Rectangular(cost, rows, cols) && IsAssignment(a, rows, cols) && IsCertificate(cost, rows, cols, a, u, v)
    requires IsComplete(b, rows, cols)
    ensures RowShare(u, b, rows) >= Sum(u)
  {
    hide Sum, HitColumns;
    AllRowsMatched(b, rows);
    RowShareIsSum(u, b, rows);
    assert u[..rows] == u;
  }

  /** Weak duality: a complete assignment with a certificate is optimal. */
  lemma CertificateIsOptimal(cost: seq<seq<real>>, rows: nat, cols: nat, a: seq<int>, u: seq<real>, v: seq<real>)
    requires Rectangular(cost, rows, cols) && IsComplete(a, rows, cols) && IsCertificate(cost, rows, cols, a, u, v)
    ensures IsOptimal(cost, a, rows, cols)
  {
    CertifiedCost(cost, rows, cols, a, u, v);
    forall b | IsComplete(b, rows, cols)
      ensures Cost(cost, a, rows) <= Cost(cost, b, rows)
    {
      CompleteCostAboveCertificate(cost, rows, cols, a, u, v, b);
    }
  }
}
