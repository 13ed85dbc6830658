/**
  Route simplification (controller/veilsight_controller/analytics_engine.py): the recursive
  Douglas-Peucker reduction of a polyline. The Euclidean distance is a parameter.
*/
module Polylines {
  import opened Numbers
  import opened Types

  type Metric = (Point, Point) -> real

  function SideOfLine(a: Point, b: Point, p: Point): real
  {
    (b.x - a.x) * (p.y - a.y) - (b.y - a.y) * (p.x - a.x)
  }

  /** How far a point is from the chord, or from its start when the chord is degenerate. */
  function Deviation(dist: Metric, start: Point, end: Point, p: Point): real
  {
    if dist(start, end) == 0.0 then dist(p, start) else Abs(SideOfLine(start, end, p)) / dist(start, end)
  }

  // ---------------------------------------------------------------- what the deviation is

  function Square(x: real): real { x * x }

  function Cross(ux: real, uy: real, wx: real, wy: real): real { ux * wy - uy * wx }

  function Dot(ux: real, uy: real, wx: real, wy: real): real { ux * wx + uy * wy }

  /** The metric is the Euclidean one. */
  ghost predicate IsEuclidean(dist: Metric)
  {
    forall a: Point, b: Point :: dist(a, b) >= 0.0 && Square(dist(a, b)) == Square(b.x - a.x) + Square(b.y - a.y)
  }

  /** The point of the line through two others at this part of the way. */
  function OnLine(a: Point, b: Point, t: real): Point
  {
    Point(a.x + t * (b.x - a.x), a.y + t * (b.y - a.y))
  }

  lemma SquareOfProduct(x: real, y: real)
    ensures Square(x) * Square(y) == Square(x * y)
  {
  }

  lemma SquareOfSum(x: real, y: real)
    ensures Square(x + y) == Square(x) + 2.0 * (x * y) + Square(y)
  {
  }

  lemma SquareOfDifference(x: real, y: real)
    ensures Square(x - y) == Square(x) - 2.0 * (x * y) + Square(y)
  {
  }

  lemma FourProducts(a: real, b: real, c: real, d: real)
    ensures (a + b) * (c + d) == a * c + a * d + b * c + b * d
  {
  }

  lemma CrossTerms(ux: real, uy: real, wx: real, wy: real, a: real, b: real, c: real, d: real)
    requires a == ux * wx && b == ux * wy && c == uy * wx && d == uy * wy
    ensures b * c == a * d
  {
    assert b * c == ux * wy * uy * wx == a * d;
  }

  /** What the product of the lengths of two vectors is made of. */
  lemma Lagrange(ux: real, uy: real, wx: real, wy: real)
    ensures (Square(ux) + Square(uy)) * (Square(wx) + Square(wy)) == Square(Cross(ux, uy, wx, wy)) + Square(Dot(ux, uy, wx, wy))
  {
    hide Square;
    var a, b, c, d := ux * wx, ux * wy, uy * wx, uy * wy;
    assert Cross(ux, uy, wx, wy) == b - c && Dot(ux, uy, wx, wy) == a + d;
    hide *;
    SquareOfProduct(ux, wx);
    SquareOfProduct(ux, wy);
    SquareOfProduct(uy, wx);
    SquareOfProduct(uy, wy);
    CrossTerms(ux, uy, wx, wy, a, b, c, d);
    FourProducts(Square(ux), Square(uy), Square(wx), Square(wy));
    assert (Square(ux) + Square(uy)) * (Square(wx) + Square(wy)) == Square(a) + Square(b) + Square(c) + Square(d);
    SquareOfDifference(b, c);
    SquareOfSum(a, d);
    assert Square(b - c) + Square(a + d) == Square(a) + Square(b) + Square(c) + Square(d);
  }

  lemma ProductPositive(x: real, y: real)
    requires x > 0.0 && y > 0.0
    ensures x * y > 0.0
  {
  }

  lemma DifferenceOfSquares(x: real, y: real, less: real, more: real)
    requires less == y - x > 0.0 && more == y + x > 0.0
    ensures Square(x) < Square(y)
  {
    ProductPositive(less, more);
    assert less * more == y * y - x * x;
  }

  lemma LargerSquare(x: real, y: real)
    requires 0.0 <= x < y
    ensures Square(x) < Square(y)
  {
    DifferenceOfSquares(x, y, y - x, y + x);
  }

  lemma SquareOfOpposite(x: real)
    ensures Square(-x) == Square(x) && Square(0.0) == 0.0
  {
  }

  lemma TimesGrows(d: real, x: real, y: real)
    requires d > 0.0 && x < y
    ensures d * x < d * y
  {
  }

  /** A square, scaled, is this much. */
  predicate Scaled(scale: real, x: real, much: real)
  {
    scale * Square(x) == much
  }

  lemma ScaledBelow(d: real, x: real, y: real, p: real, q: real)
    requires x >= 0.0 && y >= 0.0 && d > 0.0 && Scaled(d, x, p) && Scaled(d, y, q) && p <= q
    ensures x <= y
  {
    hide Square;
    if x > y {
      LargerSquare(y, x);
      TimesGrows(d, Square(y), Square(x));
    }
  }

  lemma SquarePositive(x: real)
    ensures Square(x) >= 0.0 && (x != 0.0 ==> Square(x) > 0.0) && Square(0.0) == 0.0
  {
    SquareOfOpposite(x);
    hide Square;
    if x > 0.0 {
      LargerSquare(0.0, x);
    } else if x < 0.0 {
      LargerSquare(0.0, -x);
    }
  }

  lemma LengthPositive(dist: Metric, a: Point, b: Point)
    requires IsEuclidean(dist) && a != b
    ensures dist(a, b) > 0.0 && Square(dist(a, b)) > 0.0
  {
    hide Square;
    assert Square(dist(a, b)) == Square(b.x - a.x) + Square(b.y - a.y);
    SquarePositive(b.x - a.x);
    SquarePositive(b.y - a.y);
    SquarePositive(dist(a, b));
    assert b.x - a.x != 0.0 || b.y - a.y != 0.0;
  }

  lemma QuotientBack(x: real, l: real)
    requires x >= 0.0 && l > 0.0
    ensures x / l >= 0.0 && l * (x / l) == x
  {
  }

  lemma SameSquare(x: real)
    ensures Square(Abs(x)) == Square(x)
  {
  }

  lemma ScaledFactor(x: real, l: real, q: real)
    requires l * q == x
    ensures Scaled(Square(l), q, Square(x))
  {
    hide Square;
    SquareOfProduct(l, q);
    assert Square(l * q) == Square(x);
  }

  lemma ScaledQuotient(x: real, l: real)
    requires l > 0.0 && x >= 0.0
    ensures x / l >= 0.0 && Scaled(Square(l), x / l, Square(x))
  {
    hide Square, Scaled;
    QuotientBack(x, l);
    ScaledFactor(x, l, x / l);
  }

  /** The deviation, scaled and squared. */
  lemma DeviationScaled(dist: Metric, a: Point, b: Point, p: Point)
    requires IsEuclidean(dist) && a != b
    ensures Deviation(dist, a, b, p) >= 0.0
    ensures Scaled(Square(dist(a, b)), Deviation(dist, a, b, p), Square(SideOfLine(a, b, p)))
  {
    LengthPositive(dist, a, b);
    hide SideOfLine, Square, IsEuclidean, Abs, Scaled;
    SameSquare(SideOfLine(a, b, p));
    ScaledQuotient(Abs(SideOfLine(a, b, p)), dist(a, b));
  }

  /** How far along the line the nearest point is from this one, times the length of the chord. */
  function Along(a: Point, b: Point, p: Point, s: real): real
  {
    var q := OnLine(a, b, s);
    Dot(b.x - a.x, b.y - a.y, p.x - q.x, p.y - q.y)
  }

  lemma SameSide(a: Point, b: Point, p: Point, s: real)
    ensures var q := OnLine(a, b, s); Cross(b.x - a.x, b.y - a.y, p.x - q.x, p.y - q.y) == SideOfLine(a, b, p)
  {
  }

  lemma LengthsScaled(ux: real, uy: real, wx: real, wy: real, l: real, m: real)
    requires Square(l) == Square(ux) + Square(uy) && Square(m) == Square(wx) + Square(wy)
    ensures Scaled(Square(l), m, Square(Cross(ux, uy, wx, wy)) + Square(Dot(ux, uy, wx, wy)))
  {
    hide Square, Cross, Dot;
    Lagrange(ux, uy, wx, wy);
  }

  /** How far a point of the line is, scaled. */
  lemma LineDistance(dist: Metric, a: Point, b: Point, p: Point, s: real)
    requires IsEuclidean(dist)
    ensures Scaled(Square(dist(a, b)), dist(OnLine(a, b, s), p), Square(SideOfLine(a, b, p)) + Square(Along(a, b, p, s)))
  {
    hide Square, OnLine, SideOfLine, Cross, Dot, Scaled;
    var q, along := OnLine(a, b, s), Along(a, b, p, s);
    assert along == Dot(b.x - a.x, b.y - a.y, p.x - q.x, p.y - q.y);
    LengthsScaled(b.x - a.x, b.y - a.y, p.x - q.x, p.y - q.y, dist(a, b), dist(q, p));
    SameSide(a, b, p, s);
  }

  lemma NoNearer(dist: Metric, a: Point, b: Point, p: Point, s: real)
    requires IsEuclidean(dist) && a != b
    ensures Deviation(dist, a, b, p) <= dist(OnLine(a, b, s), p)
  {
    LengthPositive(dist, a, b);
    assert dist(OnLine(a, b, s), p) >= 0.0;
    hide *;
    DeviationScaled(dist, a, b, p);
    LineDistance(dist, a, b, p, s);
    SquarePositive(Along(a, b, p, s));
    var side := Square(SideOfLine(a, b, p));
    ScaledBelow(Square(dist(a, b)), Deviation(dist, a, b, p), dist(OnLine(a, b, s), p), side, side + Square(Along(a, b, p, s)));
  }

  /** The part of the way to the foot of the perpendicular. */
  function Foot(dist: Metric, a: Point, b: Point, p: Point): real
    requires Square(dist(a, b)) > 0.0
  {
    Dot(b.x - a.x, b.y - a.y, p.x - a.x, p.y - a.y) / Square(dist(a, b))
  }

  lemma AsNear(dist: Metric, a: Point, b: Point, p: Point)
    requires IsEuclidean(dist) && a != b && Square(dist(a, b)) > 0.0
    ensures Deviation(dist, a, b, p) == dist(OnLine(a, b, Foot(dist, a, b, p)), p)
  {
    var t := Foot(dist, a, b, p);
    assert dist(OnLine(a, b, t), p) >= 0.0;
    FootIsBelow(dist, a, b, p);
    hide *;
    NoNearer(dist, a, b, p, t);
    DeviationScaled(dist, a, b, p);
    LineDistance(dist, a, b, p, t);
    SquarePositive(0.0);
    var side := Square(SideOfLine(a, b, p));
    ScaledBelow(Square(dist(a, b)), dist(OnLine(a, b, t), p), Deviation(dist, a, b, p), side + Square(0.0), side);
  }

  lemma FootIsBelow(dist: Metric, a: Point, b: Point, p: Point)
    requires IsEuclidean(dist) && Square(dist(a, b)) > 0.0
    ensures Along(a, b, p, Foot(dist, a, b, p)) == 0.0
  {
    hide Square, Dot, OnLine, Along;
    var t, d := Foot(dist, a, b, p), Square(dist(a, b));
    assert d == Square(b.x - a.x) + Square(b.y - a.y);
    QuotientTimes(Dot(b.x - a.x, b.y - a.y, p.x - a.x, p.y - a.y), d);
    AlongIs(a, b, p, t);
  }

  lemma QuotientTimes(x: real, d: real)
    requires d > 0.0
    ensures x / d * d == x
  {
  }

  lemma AlongIs(a: Point, b: Point, p: Point, s: real)
    ensures Along(a, b, p, s)
      == Dot(b.x - a.x, b.y - a.y, p.x - a.x, p.y - a.y) - s * (Square(b.x - a.x) + Square(b.y - a.y))
  {
  }

  /**
    In the plane the deviation is the distance from the line through both ends: no point of it is nearer,
    and one is just as near.
  */
  lemma DeviationIsDistance(dist: Metric, a: Point, b: Point, p: Point) returns (t: real)
    requires IsEuclidean(dist) && a != b
    ensures forall s: real :: Deviation(dist, a, b, p) <= dist(OnLine(a, b, s), p)
    ensures Deviation(dist, a, b, p) == dist(OnLine(a, b, t), p)
  {
    hide *;
    LengthPositive(dist, a, b);
    t := Foot(dist, a, b, p);
    forall s: real
      ensures Deviation(dist, a, b, p) <= dist(OnLine(a, b, s), p)
    {
      NoNearer(dist, a, b, p, s);
    }
    AsNear(dist, a, b, p);
  }

  /** The deviation of the i-th point from the chord of the whole polyline. */
  function Deviates(dist: Metric, points: seq<Point>, i: nat): real
    requires i < |points|
  {
    Deviation(dist, points[0], points[|points| - 1], points[i])
  }

  datatype Peak = Peak(distance: real, index: nat)

  /** The first interior point of greatest positive deviation among those before i; index 0 if none deviates. */
  function PeakBefore(dist: Metric, points: seq<Point>, i: nat): (k: Peak)
    requires 1 <= i < |points|
    ensures k.index < i && k.distance >= 0.0
  {
    if i == 1 then Peak(0.0, 0)
    else
      var k := PeakBefore(dist, points, i - 1);
      var d := Deviates(dist, points, i - 1);
      if d > k.distance then Peak(d, i - 1) else k
  }

  function Farthest(dist: Metric, points: seq<Point>): Peak
    requires |points| >= 2
  {
    PeakBefore(dist, points, |points| - 1)
  }

  /** The index is that of the first interior point of greatest deviation, if any deviates. */
  ghost predicate IsPeak(dist: Metric, points: seq<Point>, i: nat, k: Peak)
    requires 1 <= i < |points|
  {
    && k.index < i
    && k.distance >= 0.0
    && (forall m :: 1 <= m < i ==> Deviates(dist, points, m) <= k.distance)
    && (forall m :: 1 <= m < k.index ==> Deviates(dist, points, m) < k.distance)
    && (if k.index == 0 then k.distance == 0.0 else k.distance == Deviates(dist, points, k.index) > 0.0)
  }

  lemma {:induction false} PeakBeforeIsPeak(dist: Metric, points: seq<Point>, i: nat)
    requires 1 <= i < |points|
    ensures IsPeak(dist, points, i, PeakBefore(dist, points, i))
  {
    hide Deviates;
    if i > 1 {
      PeakBeforeIsPeak(dist, points, i - 1);
    }
  }

  lemma PeakComesFirst(dist: Metric, points: seq<Point>, i: nat, k: Peak, other: Peak)
    requires 1 <= i < |points| && IsPeak(dist, points, i, k) && IsPeak(dist, points, i, other)
    ensures other.index <= k.index
  {
    hide Deviates;
    if other.index > 0 {
      assert Deviates(dist, points, other.index) <= k.distance;
    }
  }

  lemma PeakIsUnique(dist: Metric, points: seq<Point>, i: nat, k: Peak, other: Peak)
    requires 1 <= i < |points| && IsPeak(dist, points, i, k) && IsPeak(dist, points, i, other)
    ensures k == other
  {
    PeakComesFirst(dist, points, i, k, other);
    PeakComesFirst(dist, points, i, other, k);
  }

  /** Two polylines joined at the point they share. */
  function Glued(left: seq<Point>, right: seq<Point>): (r: seq<Point>)
    requires left != []
    ensures |r| == |left| - 1 + |right|
  {
    left[..|left| - 1] + right
  }

  function Simplified(dist: Metric, points: seq<Point>, epsilon: real): (r: seq<Point>)
    ensures |points| >= 2 ==> |r| >= 2
    ensures |r| <= |points|
    decreases |points|
  {
    if |points| <= 2 || epsilon <= 0.0 then points
    else
      var k := Farthest(dist, points);
      if k.distance > epsilon then
        PeakBeforeIsPeak(dist, points, |points| - 1);
        var left := Simplified(dist, points[..k.index + 1], epsilon);
        var right := Simplified(dist, points[k.index..], epsilon);
        Glued(left, right)
      else [points[0], points[|points| - 1]]
  }

  method SimplifyPolyline(dist: Metric, points: seq<Point>, epsilon: real) returns (r: seq<Point>)
    ensures r == Simplified(dist, points, epsilon)
    decreases |points|
  {
    hide Simplified, Glued, PeakBefore;
    if |points| <= 2 || epsilon <= 0.0 {
      UnsplitIs(dist, points, epsilon);
      return points;
    }
    PeakSteps(dist, points, 1);
    var start, end := points[0], points[|points| - 1];
    var maxDistance, maxIndex := 0.0, 0;
    for i := 1 to |points| - 1
      invariant Peak(maxDistance, maxIndex) == PeakBefore(dist, points, i)
    {
      PeakSteps(dist, points, i);
      var d := Deviation(dist, start, end, points[i]);
      if d > maxDistance {
        maxDistance, maxIndex := d, i;
      }
    }
    if maxDistance > epsilon {
      ghost var k := SplitAt(dist, points, epsilon);
      var left := SimplifyPolyline(dist, points[..maxIndex + 1], epsilon);
      var right := SimplifyPolyline(dist, points[maxIndex..], epsilon);
      return Glued(left, right);
    }
    UnsplitIs(dist, points, epsilon);
    return [start, end];
  }

  lemma PeakSteps(dist: Metric, points: seq<Point>, i: nat)
    requires 1 <= i < |points|
    ensures PeakBefore(dist, points, 1) == Peak(0.0, 0)
    ensures var k, d := PeakBefore(dist, points, i), Deviates(dist, points, i);
      i + 1 < |points| ==> PeakBefore(dist, points, i + 1) == if d > k.distance then Peak(d, i) else k
  {
    hide Deviates;
  }

  lemma UnsplitIs(dist: Metric, points: seq<Point>, epsilon: real)
    requires !Splits(dist, points, epsilon)
    ensures Simplified(dist, points, epsilon)
         == if |points| <= 2 || epsilon <= 0.0 then points else [points[0], points[|points| - 1]]
  {
    hide PeakBefore;
  }

  // ---------------------------------------------------------------- what is kept and what is dropped

  /** Strictly increasing positions from the first to the last point. */
  ghost predicate Spans(idx: seq<nat>, n: nat)
  {
    && |idx| >= 1
    && idx[0] == 0
    && idx[|idx| - 1] == n - 1
    && forall i, j :: 0 <= i < j < |idx| ==> idx[i] < idx[j]
  }

  ghost predicate PointsAt(r: seq<Point>, points: seq<Point>, idx: seq<nat>)
  {
    |r| == |idx| && forall i :: 0 <= i < |idx| ==> idx[i] < |points| && r[i] == points[idx[i]]
  }

  /** Every point dropped between two kept neighbours is within epsilon of their chord. */
  ghost predicate DroppedAreNear(dist: Metric, points: seq<Point>, epsilon: real, idx: seq<nat>)
    requires forall i :: 0 <= i < |idx| ==> idx[i] < |points|
  {
    forall i :: 0 <= i < |idx| - 1 ==> GapIsNear(dist, points, epsilon, idx[i], idx[i + 1])
  }

  ghost predicate GapIsNear(dist: Metric, points: seq<Point>, epsilon: real, a: nat, b: nat)
    requires a < |points| && b < |points|
  {
    forall m :: a < m < b ==> NearChord(dist, points, epsilon, a, b, m)
  }

  ghost predicate NearChord(dist: Metric, points: seq<Point>, epsilon: real, a: nat, b: nat, m: nat)
    requires a < |points| && b < |points|
  {
    m < |points| && Deviation(dist, points[a], points[b], points[m]) <= epsilon
  }

  ghost predicate Reduces(dist: Metric, points: seq<Point>, epsilon: real, r: seq<Point>, idx: seq<nat>)
  {
    Spans(idx, |points|) && PointsAt(r, points, idx) && DroppedAreNear(dist, points, epsilon, idx)
  }

  function Shifted(idx: seq<nat>, offset: nat): (r: seq<nat>)
    ensures |r| == |idx| && forall i :: 0 <= i < |idx| ==> r[i] == idx[i] + offset
  {
    seq(|idx|, i requires 0 <= i < |idx| => idx[i] + offset)
  }

  function Joined(left: seq<nat>, right: seq<nat>, k: nat): seq<nat>
    requires |left| >= 1
  {
    left[..|left| - 1] + Shifted(right, k)
  }

  lemma JoinedAt(left: seq<nat>, right: seq<nat>, k: nat, i: nat)
    requires |left| >= 1 && i < |Joined(left, right, k)|
    ensures |Joined(left, right, k)| == |left| - 1 + |right|
    ensures Joined(left, right, k)[i] == if i < |left| - 1 then left[i] else right[i - (|left| - 1)] + k
  {
  }

  lemma JoinedSpans(left: seq<nat>, right: seq<nat>, k: nat, n: nat)
    requires 0 < k < n - 1 && Spans(left, k + 1) && Spans(right, n - k)
    ensures Spans(Joined(left, right, k), n)
    ensures |left| - 1 < |Joined(left, right, k)| && Joined(left, right, k)[|left| - 1] == k
  {
    var idx, c := Joined(left, right, k), |left| - 1;
    JoinedAt(left, right, k, 0);
    JoinedAt(left, right, k, |idx| - 1);
    JoinedAt(left, right, k, c);
    assert c > 0;
    forall i, j | 0 <= i < j < |idx|
      ensures idx[i] < idx[j]
    {
      JoinedAt(left, right, k, i);
      JoinedAt(left, right, k, j);
      assert i < c ==> left[i] < left[c];
    }
  }

  lemma JoinedPoints(points: seq<Point>, k: nat, l: seq<Point>, left: seq<nat>, r: seq<Point>, right: seq<nat>)
    requires 0 < k < |points| - 1 && |left| >= 1
    requires PointsAt(l, points[..k + 1], left) && PointsAt(r, points[k..], right)
    ensures PointsAt(l[..|l| - 1] + r, points, Joined(left, right, k))
  {
    var idx := Joined(left, right, k);
    forall i | 0 <= i < |idx|
      ensures idx[i] < |points| && (l[..|l| - 1] + r)[i] == points[idx[i]]
    {
      JoinedAt(left, right, k, i);
    }
  }

  lemma GapInPart(dist: Metric, points: seq<Point>, epsilon: real, from: nat, to: nat, a: nat, b: nat)
    requires from <= to <= |points| && a < to - from && b < to - from
    requires GapIsNear(dist, points[from..to], epsilon, a, b)
    ensures GapIsNear(dist, points, epsilon, a + from, b + from)
  {
    var lo, hi := a + from, b + from;
    forall m | lo < m < hi
      ensures NearChord(dist, points, epsilon, lo, hi, m)
    {
      assert NearChord(dist, points[from..to], epsilon, a, b, m - from);
    }
  }

  lemma JoinedNear(dist: Metric, points: seq<Point>, epsilon: real, k: nat, left: seq<nat>, right: seq<nat>)
    requires 0 < k < |points| - 1 && Spans(left, k + 1) && Spans(right, |points| - k)
    requires forall i :: 0 <= i < |left| ==> left[i] < |points[..k + 1]|
    requires forall i :: 0 <= i < |right| ==> right[i] < |points[k..]|
    requires DroppedAreNear(dist, points[..k + 1], epsilon, left) && DroppedAreNear(dist, points[k..], epsilon, right)
    requires forall i :: 0 <= i < |Joined(left, right, k)| ==> Joined(left, right, k)[i] < |points|
    ensures DroppedAreNear(dist, points, epsilon, Joined(left, right, k))
  {
    hide GapIsNear;
    var idx, c := Joined(left, right, k), |left| - 1;
    forall i | 0 <= i < |idx| - 1
      ensures GapIsNear(dist, points, epsilon, idx[i], idx[i + 1])
    {
      JoinedAt(left, right, k, i);
      JoinedAt(left, right, k, i + 1);
      if i < c {
        assert points[0..k + 1] == points[..k + 1];
        GapInPart(dist, points, epsilon, 0, k + 1, left[i], left[i + 1]);
        assert idx[i + 1] == left[i + 1];
      } else {
        assert points[k..|points|] == points[k..];
        GapInPart(dist, points, epsilon, k, |points|, right[i - c], right[i - c + 1]);
      }
    }
  }

  lemma JoinedReduces(dist: Metric, points: seq<Point>, epsilon: real, k: nat, l: seq<Point>, left: seq<nat>, r: seq<Point>, right: seq<nat>)
    requires 0 < k < |points| - 1
    requires Reduces(dist, points[..k + 1], epsilon, l, left) && Reduces(dist, points[k..], epsilon, r, right)
    ensures Reduces(dist, points, epsilon, Glued(l, r), Joined(left, right, k))
    ensures |left| - 1 < |Joined(left, right, k)| && Joined(left, right, k)[|left| - 1] == k
  {
    JoinedSpans(left, right, k, |points|);
    JoinedPoints(points, k, l, left, r, right);
    JoinedNear(dist, points, epsilon, k, left, right);
    hide Spans, DroppedAreNear, Joined;
  }

  function Identity(n: nat): (r: seq<nat>)
    ensures |r| == n && forall i :: 0 <= i < n ==> r[i] == i
  {
    seq(n, i => i)
  }

  predicate Splits(dist: Metric, points: seq<Point>, epsilon: real)
  {
    |points| > 2 && epsilon > 0.0 && Farthest(dist, points).distance > epsilon
  }

  /** A polyline that splits is put together from its two halves, which share the peak. */
  lemma SplitAt(dist: Metric, points: seq<Point>, epsilon: real) returns (k: nat)
    requires Splits(dist, points, epsilon)
    ensures 0 < k < |points| - 1 && k == Farthest(dist, points).index
    ensures var left, right := Simplified(dist, points[..k + 1], epsilon), Simplified(dist, points[k..], epsilon);
      && |left| >= 2
      && |right| >= 2
      && Simplified(dist, points, epsilon) == Glued(left, right)
  {
    hide PeakBefore, Deviates, Glued;
    k := Farthest(dist, points).index;
    PeakBeforeIsPeak(dist, points, |points| - 1);
  }

  lemma UnsplitReduces(dist: Metric, points: seq<Point>, epsilon: real) returns (idx: seq<nat>)
    requires |points| >= 1 && !Splits(dist, points, epsilon)
    ensures Reduces(dist, points, epsilon, Simplified(dist, points, epsilon), idx)
  {
    if |points| <= 2 || epsilon <= 0.0 {
      idx := Identity(|points|);
    } else {
      PeakBeforeIsPeak(dist, points, |points| - 1);
      hide PeakBefore;
      var last := |points| - 1;
      idx := [0, last];
      forall m | 0 < m < last
        ensures NearChord(dist, points, epsilon, 0, last, m)
      {
        assert Deviates(dist, points, m) <= epsilon;
      }
    }
  }

  /**
    The result is a subsequence that keeps both ends, and every dropped point lies within epsilon of
    the chord of the kept points around it.
  */
  lemma {:induction false} SimplifiedReduces(dist: Metric, points: seq<Point>, epsilon: real) returns (idx: seq<nat>)
    requires |points| >= 1
    ensures Reduces(dist, points, epsilon, Simplified(dist, points, epsilon), idx)
    decreases |points|
  {
    hide Reduces, Simplified, Farthest;
    if Splits(dist, points, epsilon) {
      var k := SplitAt(dist, points, epsilon);
      var left := SimplifiedReduces(dist, points[..k + 1], epsilon);
      var right := SimplifiedReduces(dist, points[k..], epsilon);
      ReducesSpans(dist, points[..k + 1], epsilon, Simplified(dist, points[..k + 1], epsilon), left);
      JoinedReduces(dist, points, epsilon, k, Simplified(dist, points[..k + 1], epsilon), left,
                    Simplified(dist, points[k..], epsilon), right);
      idx := Joined(left, right, k);
    } else {
      idx := UnsplitReduces(dist, points, epsilon);
    }
  }

  lemma ReducesSpans(dist: Metric, points: seq<Point>, epsilon: real, r: seq<Point>, idx: seq<nat>)
    requires Reduces(dist, points, epsilon, r, idx)
    ensures |idx| >= 1 && |r| == |idx| && Spans(idx, |points|) && PointsAt(r, points, idx)
    ensures |points| >= 1 && r[0] == points[0] && r[|r| - 1] == points[|points| - 1]
  {
  }

  // ---------------------------------------------------------------- simplifying twice

  /** The peak survives in any reduction that keeps it. */
  lemma PeakSurvives(dist: Metric, points: seq<Point>, r: seq<Point>, idx: seq<nat>, c: nat)
    requires |points| >= 3 && Spans(idx, |points|) && PointsAt(r, points, idx)
    requires 0 < c < |idx| - 1 && idx[c] == Farthest(dist, points).index
    ensures |r| >= 3 && Farthest(dist, r) == Peak(Farthest(dist, points).distance, c)
  {
    var k := Farthest(dist, points);
    PeakBeforeIsPeak(dist, points, |points| - 1);
    PeakBeforeIsPeak(dist, r, |r| - 1);
    hide PeakBefore, Deviation;
    assert forall m :: 0 <= m < |r| ==> Deviates(dist, r, m) == Deviates(dist, points, idx[m]);
    assert IsPeak(dist, r, |r| - 1, Peak(k.distance, c)) by {
      hide Deviates;
      forall m | 1 <= m < |r| - 1
        ensures Deviates(dist, r, m) <= k.distance && (m < c ==> Deviates(dist, r, m) < k.distance)
      {
        assert 1 <= idx[m] < |points| - 1;
      }
    }
    PeakIsUnique(dist, r, |r| - 1, Farthest(dist, r), Peak(k.distance, c));
  }

  /** Putting the halves of a split polyline together keeps the peak, now at the seam. */
  lemma SeamIsPeak(dist: Metric, points: seq<Point>, epsilon: real, left: seq<Point>, right: seq<Point>, l: seq<nat>, r: seq<nat>)
    requires Splits(dist, points, epsilon)
    requires var k := Farthest(dist, points).index;
      0 < k < |points| - 1 && Reduces(dist, points[..k + 1], epsilon, left, l) && Reduces(dist, points[k..], epsilon, right, r)
    requires |left| >= 2 && |right| >= 2
    ensures Splits(dist, Glued(left, right), epsilon)
    ensures Farthest(dist, Glued(left, right)).index == |left| - 1
  {
    var k, c := Farthest(dist, points).index, |left| - 1;
    hide Farthest, Reduces;
    ReducesSpans(dist, points[..k + 1], epsilon, left, l);
    JoinedReduces(dist, points, epsilon, k, left, l, right, r);
    var all, idx := Glued(left, right), Joined(l, r, k);
    ReducesSpans(dist, points, epsilon, all, idx);
    hide Spans, PointsAt, Joined;
    PeakSurvives(dist, points, all, idx, c);
  }

  /** A simplified polyline splits where the polyline did. */
  lemma HalvesAgain(dist: Metric, points: seq<Point>, epsilon: real)
    requires Splits(dist, points, epsilon)
    ensures var k := Farthest(dist, points).index;
      0 < k < |points| - 1 &&
      var left, right := Simplified(dist, points[..k + 1], epsilon), Simplified(dist, points[k..], epsilon);
      var all := Glued(left, right);
      && all == Simplified(dist, points, epsilon)
      && Splits(dist, all, epsilon)
      && Farthest(dist, all).index == |left| - 1
      && all[..|left|] == left
      && all[|left| - 1..] == right
  {
    hide Simplified, Farthest, Reduces, Splits, Glued;
    var k := SplitAt(dist, points, epsilon);
    var left, right := Simplified(dist, points[..k + 1], epsilon), Simplified(dist, points[k..], epsilon);
    var l := SimplifiedReduces(dist, points[..k + 1], epsilon);
    var r := SimplifiedReduces(dist, points[k..], epsilon);
    SeamIsPeak(dist, points, epsilon, left, right, l, r);
    ReducesSpans(dist, points[..k + 1], epsilon, left, l);
    ReducesSpans(dist, points[k..], epsilon, right, r);
    SharedPeak(left, right);
  }

  /** Two halves that share a point can be taken apart again. */
  lemma SharedPeak(left: seq<Point>, right: seq<Point>)
    requires |left| >= 1 && |right| >= 1 && left[|left| - 1] == right[0]
    ensures var all := Glued(left, right); all[..|left|] == left && all[|left| - 1..] == right
  {
  }

  /** Simplifying a simplified polyline changes nothing. */
  lemma {:induction false} SimplifyingTwiceIsOnce(dist: Metric, points: seq<Point>, epsilon: real)
    ensures Simplified(dist, Simplified(dist, points, epsilon), epsilon) == Simplified(dist, points, epsilon)
    decreases |points|
  {
    hide Simplified, Farthest, Splits, Glued;
    if Splits(dist, points, epsilon) {
      HalvesAgain(dist, points, epsilon);
      var k := SplitAt(dist, points, epsilon);
      SimplifyingTwiceIsOnce(dist, points[..k + 1], epsilon);
      SimplifyingTwiceIsOnce(dist, points[k..], epsilon);
      var at := SplitAt(dist, Simplified(dist, points, epsilon), epsilon);
    } else {
      UnsplitTwice(dist, points, epsilon);
    }
  }

  lemma UnsplitTwice(dist: Metric, points: seq<Point>, epsilon: real)
    requires !Splits(dist, points, epsilon)
    ensures Simplified(dist, Simplified(dist, points, epsilon), epsilon) == Simplified(dist, points, epsilon)
  {
    hide Farthest, Glued;
  }
}
