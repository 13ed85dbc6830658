/**
  What the overlap of two boxes (core/src/tracking/association.cpp) means, in terms of the points
  the boxes share.
*/
module Overlaps {
  import opened Numbers
  import opened Types
  import opened Association

  /** The point lies inside the rectangle, not on its border. */
  predicate Inside(p: Point, r: Rect)
  {
    r.x < p.x < r.x + r.w && r.y < p.y < r.y + r.h
  }

  /** The rectangle r holds exactly the points that lie inside both others. */
  ghost predicate IsShared(r: Rect, a: Rect, b: Rect)
  {
    forall p: Point :: Inside(p, r) <==> Inside(p, a) && Inside(p, b)
  }

  ghost predicate ShareNothing(a: Rect, b: Rect)
  {
    forall p: Point :: !(Inside(p, a) && Inside(p, b))
  }

  /** One rectangle lies within another. */
  predicate Within(a: Rect, b: Rect)
  {
    b.x <= a.x && a.x + a.w <= b.x + b.w && b.y <= a.y && a.y + a.h <= b.y + b.h
  }

  // ---------------------------------------------------------------- the shared rectangle

  function Shared(a: Rect, b: Rect): Rect
  {
    var x, y := Max(a.x, b.x), Max(a.y, b.y);
    Rect(x, y, Min(a.x + a.w, b.x + b.w) - x, Min(a.y + a.h, b.y + b.h) - y)
  }

  lemma SharedIsShared(a: Rect, b: Rect)
    ensures IsShared(Shared(a, b), a, b)
    ensures Overlap(a, b) == Area(Shared(a, b).w, Shared(a, b).h)
  {
  }

  lemma MiddleInside(r: Rect)
    requires r.w > 0.0 && r.h > 0.0
    ensures Inside(Point(r.x + r.w * 0.5, r.y + r.h * 0.5), r)
  {
  }

  /** A point with these coordinates exists inside the rectangle, so it must lie inside the other. */
  lemma PointTold(x: real, y: real, a: Rect, b: Rect)
    requires Inside(Point(x, y), a) && forall p: Point :: Inside(p, a) ==> Inside(p, b)
    ensures Inside(Point(x, y), b)
  {
  }

  /** A rectangle whose points all lie in another lies within it. */
  lemma PointsWithin(a: Rect, b: Rect)
    requires a.w > 0.0 && a.h > 0.0 && forall p: Point :: Inside(p, a) ==> Inside(p, b)
    ensures Within(a, b)
  {
    var cx, cy := a.x + a.w * 0.5, a.y + a.h * 0.5;
    if a.x < b.x {
      PointTold((a.x + Min(b.x, a.x + a.w)) * 0.5, cy, a, b);
    }
    if a.y < b.y {
      PointTold(cx, (a.y + Min(b.y, a.y + a.h)) * 0.5, a, b);
    }
    if a.x + a.w > b.x + b.w {
      PointTold((a.x + a.w + Max(b.x + b.w, a.x)) * 0.5, cy, a, b);
    }
    if a.y + a.h > b.y + b.h {
      PointTold(cx, (a.y + a.h + Max(b.y + b.h, a.y)) * 0.5, a, b);
    }
  }

  lemma EmptyHasNoArea(r: Rect)
    requires forall p: Point :: !Inside(p, r)
    ensures Area(r.w, r.h) == 0.0
  {
    if r.w > 0.0 && r.h > 0.0 {
      MiddleInside(r);
    }
  }

  /** Two rectangles with the same points have the same area. */
  lemma SamePointsSameArea(r: Rect, s: Rect)
    requires forall p: Point :: Inside(p, r) <==> Inside(p, s)
    ensures Area(r.w, r.h) == Area(s.w, s.h)
  {
    hide Area;
    if r.w > 0.0 && r.h > 0.0 && s.w > 0.0 && s.h > 0.0 {
      PointsWithin(r, s);
      PointsWithin(s, r);
    } else {
      if r.w > 0.0 && r.h > 0.0 {
        NobodyInside(s, r);
      } else {
        NobodyInside(r, s);
      }
      EmptyHasNoArea(r);
      EmptyHasNoArea(s);
    }
  }

  lemma NobodyInside(r: Rect, s: Rect)
    requires forall p: Point :: Inside(p, r) <==> Inside(p, s)
    requires !(r.w > 0.0 && r.h > 0.0)
    ensures forall p: Point :: !Inside(p, r)
    ensures forall p: Point :: !Inside(p, s)
  {
  }

  // ---------------------------------------------------------------- intersection over union

  /** The area of whatever rectangle the boxes share is the overlap. */
  lemma SharedArea(a: Rect, b: Rect, r: Rect)
    requires IsShared(r, a, b)
    ensures Overlap(a, b) == Area(r.w, r.h)
  {
    hide Overlap, Area, Shared, Inside;
    SharedIsShared(a, b);
    SamePointsSameArea(r, Shared(a, b));
  }

  lemma OfRectangles(a: Box, b: Box)
    ensures BoxIou(a, b) == RectIou(RectOf(a), RectOf(b))
  {
    hide RectIou;
  }

  /** The overlap of two boxes is the area they share as a part of the area they cover. */
  lemma IouMeans(a: Box, b: Box, r: Rect)
    requires IsShared(r, RectOf(a), RectOf(b))
    ensures BoxIou(a, b) * (Area(a.w, a.h) + Area(b.w, b.h) - Area(r.w, r.h)) == Area(r.w, r.h)
  {
    hide *;
    SharedArea(RectOf(a), RectOf(b), r);
    OfRectangles(a, b);
    IouQuotient(RectOf(a), RectOf(b));
    BoxSides(a);
    BoxSides(b);
  }

  lemma IouQuotient(a: Rect, b: Rect)
    ensures RectIou(a, b) * (Area(a.w, a.h) + Area(b.w, b.h) - Overlap(a, b)) == Overlap(a, b)
  {
    var inter := Overlap(a, b);
    var uni := Area(a.w, a.h) + Area(b.w, b.h) - inter;
    hide Overlap, Area;
    if inter > 0.0 {
      QuotientTimes(inter, uni);
    }
  }

  lemma QuotientTimes(x: real, y: real)
    requires y > 0.0
    ensures x / y * y == x
  {
  }

  /** A box overlaps itself completely. */
  lemma OverlapsItself(a: Box)
    requires a.w > 0.0 && a.h > 0.0
    ensures BoxIou(a, a) == 1.0
  {
    IouMeans(a, a, RectOf(a));
    PositiveProduct(a.w, a.h);
    hide BoxIou, Inside;
    TimesOne(BoxIou(a, a), Area(a.w, a.h));
  }

  lemma PositiveProduct(x: real, y: real)
    requires x > 0.0 && y > 0.0
    ensures x * y > 0.0
  {
  }

  lemma TimesOne(x: real, y: real)
    requires x * y == y && y > 0.0
    ensures x == 1.0
  {
    assert (x - 1.0) * y == 0.0;
  }

  /** Only the same rectangle overlaps a box completely. */
  lemma OnlyItselfCompletely(a: Box, b: Box)
    requires BoxIou(a, b) == 1.0
    ensures RectOf(a) == RectOf(b)
  {
    var r := Shared(RectOf(a), RectOf(b));
    hide *;
    CompleteHalves(a, b);
    SharedSides(RectOf(a), RectOf(b));
    BoxSides(a);
    BoxSides(b);
    SameAreaSameSides(r, RectOf(a));
    SameAreaSameSides(r, RectOf(b));
    SameSides(RectOf(a), RectOf(b));
  }

  lemma BoxSides(a: Box)
    ensures RectOf(a).w == a.w && RectOf(a).h == a.h
  {
  }

  lemma SameAreaSameSides(r: Rect, a: Rect)
    requires r.w <= a.w && r.h <= a.h && Area(r.w, r.h) == Area(a.w, a.h) > 0.0
    ensures r.w == a.w && r.h == a.h
  {
    PositiveFactors(Max(0.0, r.w), Max(0.0, r.h));
    SameProduct(r.w, a.w, r.h, a.h);
  }

  /** Two boxes that overlap completely have the area of what they share. */
  lemma CompleteHalves(a: Box, b: Box)
    requires BoxIou(a, b) == 1.0
    ensures var r := Shared(RectOf(a), RectOf(b)); Area(r.w, r.h) == Area(a.w, a.h) == Area(b.w, b.h) > 0.0
  {
    hide *;
    SharedIsShared(RectOf(a), RectOf(b));
    SharedFacts(a, b, Shared(RectOf(a), RectOf(b)));
  }

  lemma SharedSides(a: Rect, b: Rect)
    ensures var r := Shared(a, b); r.w <= a.w && r.w <= b.w && r.h <= a.h && r.h <= b.h
  {
  }

  lemma SameSides(a: Rect, b: Rect)
    requires var r := Shared(a, b); r.w == a.w == b.w && r.h == a.h == b.h
    ensures a == b
  {
  }

  lemma SameProduct(x: real, y: real, u: real, v: real)
    requires 0.0 < x <= y && 0.0 < u <= v && x * u == y * v
    ensures x == y && u == v
  {
    assert x * u <= x * v <= y * v;
    assert (y - x) * v == 0.0;
    assert x * (v - u) == 0.0;
  }

  /** Boxes overlap exactly if some point lies inside both. */
  lemma OverlapIff(a: Box, b: Box)
    ensures BoxIou(a, b) == 0.0 <==> ShareNothing(RectOf(a), RectOf(b))
  {
    var r := Shared(RectOf(a), RectOf(b));
    SharedIsShared(RectOf(a), RectOf(b));
    IouMeans(a, b, r);
    if ShareNothing(RectOf(a), RectOf(b)) {
      EmptyHasNoArea(r);
      hide Overlap, Shared, Area, Inside;
      IouQuotient(RectOf(a), RectOf(b));
      IouSymmetric(RectOf(a), RectOf(b));
      assert BoxIou(a, b) == 0.0;
    } else {
      var p: Point :| Inside(p, RectOf(a)) && Inside(p, RectOf(b));
      assert Inside(p, r);
      hide IsShared, BoxIou, Shared;
      assert r.w > 0.0 && r.h > 0.0;
      PositiveProduct(r.w, r.h);
    }
  }

  /** With the areas fixed, the overlap grows exactly with the area shared. */
  lemma MoreSharedOverlapsMore(a: Box, b: Box, r: Rect, c: Box, d: Box, s: Rect)
    requires IsShared(r, RectOf(a), RectOf(b)) && IsShared(s, RectOf(c), RectOf(d))
    requires Area(a.w, a.h) == Area(c.w, c.h) && Area(b.w, b.h) == Area(d.w, d.h)
    ensures BoxIou(a, b) < BoxIou(c, d) <==> Area(r.w, r.h) < Area(s.w, s.h)
  {
    hide *;
    SharedFacts(a, b, r);
    SharedFacts(c, d, s);
    var x, y, total := Area(r.w, r.h), Area(s.w, s.h), Area(a.w, a.h) + Area(b.w, b.h);
    if x == 0.0 || y == 0.0 {
      ZeroQuotient(BoxIou(a, b), x);
      ZeroQuotient(BoxIou(c, d), y);
    } else {
      LargerQuotient(BoxIou(a, b), x, BoxIou(c, d), y, total);
    }
  }

  lemma SharedFacts(a: Box, b: Box, r: Rect)
    requires IsShared(r, RectOf(a), RectOf(b))
    ensures BoxIou(a, b) * (Area(a.w, a.h) + Area(b.w, b.h) - Area(r.w, r.h)) == Area(r.w, r.h)
    ensures BoxIou(a, b) > 0.0 <==> Area(r.w, r.h) > 0.0
    ensures 0.0 <= Area(r.w, r.h) <= Area(a.w, a.h) && Area(r.w, r.h) <= Area(b.w, b.h)
  {
    hide IsShared, BoxIou, Area, Overlap;
    SharedArea(RectOf(a), RectOf(b), r);
    IouMeans(a, b, r);
    OverlapPositive(a, b);
  }

  lemma OverlapPositive(a: Box, b: Box)
    ensures BoxIou(a, b) > 0.0 <==> Overlap(RectOf(a), RectOf(b)) > 0.0
  {
    hide Overlap, Area;
    IouQuotient(RectOf(a), RectOf(b));
    IouSymmetric(RectOf(a), RectOf(b));
    assert BoxIou(a, b) == RectIou(RectOf(a), RectOf(b));
    if Overlap(RectOf(a), RectOf(b)) > 0.0 {
      assert RectIou(RectOf(a), RectOf(b)) != 0.0;
    }
  }

  lemma ZeroQuotient(q: real, x: real)
    requires 0.0 <= q && 0.0 <= x && (q > 0.0 <==> x > 0.0)
    ensures q == 0.0 <==> x == 0.0
  {
  }

  lemma LargerQuotient(p: real, x: real, q: real, y: real, total: real)
    requires p * (total - x) == x && q * (total - y) == y && 0.0 < x && 0.0 < y && 2.0 * x <= total && 2.0 * y <= total
    ensures p < q <==> x < y
  {
    var u, v := total - x, total - y;
    assert p * u * v == x * v && q * v * u == y * u;
    Regroup(p, q, u, v);
    assert x * v - y * u == (x - y) * total by {
      Expand(x, y, total);
    }
    PositiveProduct(u, v);
    SameSign(p - q, u * v, x - y, total);
  }

  lemma Regroup(p: real, q: real, u: real, v: real)
    ensures p * u * v - q * v * u == (p - q) * (u * v)
  {
  }

  lemma Expand(x: real, y: real, total: real)
    ensures x * (total - y) - y * (total - x) == (x - y) * total
  {
  }

  lemma SameSign(d: real, u: real, e: real, v: real)
    requires u > 0.0 && v > 0.0 && d * u == e * v
    ensures d < 0.0 <==> e < 0.0
  {
  }
}
