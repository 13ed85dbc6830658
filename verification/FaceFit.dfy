/**
  Which faces fit a person, and which person a face fits best (core/src/face_detector/face_policy.cpp),
  in terms of the points the two rectangles share.
*/
module FaceFit {
  import opened Numbers
  import opened Types
  import opened Association
  import opened Overlaps
  import opened FacePolicy

  lemma TwiceTheShare(inter: real, area: real)
    requires area > 0.0
    ensures inter / area >= 0.5 <==> 2.0 * inter >= area
  {
    QuotientTimes(inter, area);
    var share := inter / area;
    if share >= 0.5 {
      TimesMonotone(0.5, share, area);
    } else if 2.0 * inter >= area {
      TimesGrows(share, 0.5, area);
    }
  }

  lemma TimesMonotone(x: real, y: real, z: real)
    requires x <= y && z >= 0.0
    ensures x * z <= y * z
  {
  }

  lemma TimesGrows(x: real, y: real, z: real)
    requires x < y && z > 0.0
    ensures x * z < y * z
  {
  }

  lemma LargeFace(w: real, h: real)
    requires w >= 2.0 && h >= 2.0
    ensures Area(w, h) >= 4.0
  {
    ProductMonotone(2.0, w, 2.0, h);
  }

  /**
    A face fits a person whose points include its middle and at least half of its own, if it is detected
    surely enough and its sides are those of a face: at least 4 pixels and 4 percent of the person's
    height, at most 60 percent of it (or 4 pixels) and 95 percent of the width.
  */
  lemma PlausibleMeans(c: Config, face: FaceObservation, person: Rect, r: Rect)
    requires IsShared(r, face.bbox, person)
    ensures var f := face.bbox;
      Plausible(c, face, person) <==>
        && face.score >= c.minFaceScore
        && person.w > 1.0 && person.h > 1.0
        && person.x <= f.x + f.w / 2.0 <= person.x + person.w
        && person.y <= f.y + f.h / 2.0 <= person.y + person.h
        && 2.0 * Area(r.w, r.h) >= Area(f.w, f.h)
        && 2.0 <= f.w <= 0.95 * person.w
        && f.h >= 4.0 && f.h >= 0.04 * person.h && (f.h <= 4.0 || f.h <= 0.60 * person.h)
  {
    var f := face.bbox;
    SharedArea(f, person, r);
    if f.w >= 2.0 && f.h >= 2.0 {
      LargeFace(f.w, f.h);
      TwiceTheShare(Overlap(f, person), Area(f.w, f.h));
      hide Area, Overlap, IsShared;
    }
  }

  lemma SharedWithin(a: Rect, b: Rect)
    requires Within(a, b)
    ensures IsShared(a, a, b)
  {
  }

  /** In particular a face that lies within the person. */
  lemma FaceWithinIsPlausible(c: Config, face: FaceObservation, person: Rect)
    requires Within(face.bbox, person) && face.score >= c.minFaceScore
    requires 2.0 <= face.bbox.w <= 0.95 * person.w && 4.0 <= face.bbox.h && 0.04 * person.h <= face.bbox.h <= 0.60 * person.h
    ensures Plausible(c, face, person)
  {
    SharedWithin(face.bbox, person);
    PlausibleMeans(c, face, person, face.bbox);
    hide Plausible;
  }

  // ---------------------------------------------------------------- which person fits best

  /** A person that holds the whole face fits by the part of it the face covers. */
  lemma FitOfHolder(face: FaceObservation, person: Rect)
    requires face.bbox.w >= 2.0 && face.bbox.h >= 2.0 && Within(face.bbox, person)
    ensures (FitScore(face, person) - face.score - 2.0) * Area(person.w, person.h) == Area(face.bbox.w, face.bbox.h)
    ensures FitScore(face, person) > face.score + 2.0
  {
    var f := face.bbox;
    LargeFace(f.w, f.h);
    SharedWithin(f, person);
    SharedArea(f, person, f);
    IouQuotient(f, person);
    ProductMonotone(f.w, person.w, f.h, person.h);
    hide Area, Overlap, Within, IsShared;
    assert Overlap(f, person) / Area(f.w, f.h) == 1.0;
    var iou := RectIou(f, person);
    assert iou * Area(person.w, person.h) == Area(f.w, f.h);
    assert iou > 0.0;
  }

  /** Of two persons that hold the whole face, the smaller one fits better. */
  lemma SmallerHolderFitsBetter(face: FaceObservation, person: Rect, other: Rect)
    requires face.bbox.w >= 2.0 && face.bbox.h >= 2.0 && Within(face.bbox, person) && Within(face.bbox, other)
    ensures FitScore(face, person) > FitScore(face, other) <==> Area(person.w, person.h) < Area(other.w, other.h)
  {
    LargeFace(face.bbox.w, face.bbox.h);
    hide *;
    FitOfHolder(face, person);
    FitOfHolder(face, other);
    SmallerIsMore(FitScore(face, person) - face.score - 2.0, Area(person.w, person.h),
                  FitScore(face, other) - face.score - 2.0, Area(other.w, other.h), Area(face.bbox.w, face.bbox.h));
  }

  lemma SmallerIsMore(p: real, x: real, q: real, y: real, area: real)
    requires p > 0.0 && q > 0.0 && p * x == area && q * y == area && area > 0.0
    ensures p > q <==> x < y
  {
    assert x > 0.0 && y > 0.0;
    if p > q && x >= y {
      LargerFactor(q, y, p, x);
    } else if p <= q && x < y {
      LargerFactor(p, x, q, y);
    }
  }

  lemma LargerFactor(p: real, x: real, q: real, y: real)
    requires 0.0 < p <= q && 0.0 < x <= y && (p < q || x < y)
    ensures p * x < q * y
  {
    if p < q {
      TimesGrows(p, q, x);
      TimesMonotone(x, y, q);
    } else {
      TimesGrows(x, y, p);
    }
  }

  /** A person that holds the whole face fits better than one that shares at most two thirds of it. */
  lemma HolderFitsBetter(face: FaceObservation, person: Rect, other: Rect, r: Rect)
    requires face.bbox.w >= 2.0 && face.bbox.h >= 2.0 && Within(face.bbox, person) && IsShared(r, face.bbox, other)
    requires 3.0 * Area(r.w, r.h) <= 2.0 * Area(face.bbox.w, face.bbox.h)
    ensures FitScore(face, person) > FitScore(face, other)
  {
    var f := face.bbox;
    LargeFace(f.w, f.h);
    FitOfHolder(face, person);
    SharedArea(f, other, r);
    IouBelowShare(f, other);
    hide Overlap, Area, Within, IsShared, RectIou;
    var share := Overlap(f, other) / Area(f.w, f.h);
    QuotientTimes(Overlap(f, other), Area(f.w, f.h));
    assert share <= 2.0 / 3.0;
  }

  /** The overlap of two rectangles is at most what they share of the first. */
  lemma IouBelowShare(a: Rect, b: Rect)
    requires Area(a.w, a.h) > 0.0
    ensures RectIou(a, b) <= Overlap(a, b) / Area(a.w, a.h)
  {
    var inter, uni := Overlap(a, b), Area(a.w, a.h) + Area(b.w, b.h) - Overlap(a, b);
    hide Overlap, Area;
    if inter > 0.0 {
      SmallerDivisor(inter, Area(a.w, a.h), uni);
    }
  }

  lemma SmallerDivisor(x: real, y: real, z: real)
    requires x >= 0.0 && 0.0 < y <= z
    ensures x / z <= x / y
  {
    QuotientTimes(x, y);
    QuotientTimes(x, z);
    var p, q := x / y, x / z;
    if q > p > 0.0 {
      LargerFactor(p, y, q, z);
    }
  }
}
