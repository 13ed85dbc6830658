/**
  Which pixels of the display frame are anonymized (core/src/anonymization/anonymizer.cpp). Blurring
  and pixelating a region are not modelled, only where the regions lie.
*/
module Anonymizers {
  import opened Numbers
  import opened Types

  // ---------------------------------------------------------------- rounding

  /** Rounding to the nearest integer, halves away from zero. */
  function Lround(x: real): int
  {
    if x >= 0.0 then (x + 0.5).Floor else -((0.5 - x).Floor)
  }

  /** Halves go away from zero on either side. */
  lemma LroundIsOdd(x: real)
    ensures Lround(-x) == -Lround(x)
    ensures x >= 0.0 ==> Lround(x) as real > x - 0.5
  {
  }

  lemma LroundIsNear(x: real)
    ensures x - 0.5 <= Lround(x) as real <= x + 0.5
  {
  }

  // ---------------------------------------------------------------- geometry

  datatype PixelRect = PixelRect(x: int, y: int, width: int, height: int)

  const NO_PIXELS := PixelRect(0, 0, 0, 0)

  /** The part of a pixel rectangle inside the frame. */
  function Clipped(r: PixelRect, cols: nat, rows: nat): PixelRect
  {
    var x0, y0 := MaxInt(r.x, 0), MaxInt(r.y, 0);
    var x1, y1 := MinInt(r.x + r.width, cols), MinInt(r.y + r.height, rows);
    if r.width <= 0 || r.height <= 0 || x1 <= x0 || y1 <= y0 then NO_PIXELS else PixelRect(x0, y0, x1 - x0, y1 - y0)
  }

  /** How inference coordinates map to the display frame, and the frame's size. */
  datatype View = View(sx: real, sy: real, tx: real, ty: real, cols: nat, rows: nat)

  /** A box side after inflation. */
  function Inflated(side: real, occluded: bool): real { Max(1.0, side * (if occluded then 1.55 else 1.30)) }

  /** Where the inflated side of a box starts. */
  function InflatedStart(start: real, side: real, occluded: bool): real
  {
    start + side * 0.5 - Inflated(side, occluded) * 0.5
  }

  /** A coordinate in the display frame. */
  function Shown(x: real, scale: real, offset: real): real { x * scale + offset }

  /** An inflated side in the display frame. */
  function ShownSide(side: real, occluded: bool, scale: real): real { Inflated(side, occluded) * scale }

  /** Where the region of an interval starts on its axis, and how long it is. */
  function PixelStart(start: real, side: real, occluded: bool, scale: real, offset: real): int
  {
    Lround(Shown(InflatedStart(start, side, occluded), scale, offset))
  }

  function PixelLength(side: real, occluded: bool, scale: real): int { Lround(ShownSide(side, occluded, scale)) }

  function MapBox(b: Box, v: View): PixelRect
  {
    Clipped(PixelRect(PixelStart(b.x, b.w, b.occluded, v.sx, v.tx), PixelStart(b.y, b.h, b.occluded, v.sy, v.ty),
                      PixelLength(b.w, b.occluded, v.sx), PixelLength(b.h, b.occluded, v.sy)), v.cols, v.rows)
  }

  predicate LargeEnough(r: PixelRect) { r.width >= 2 && r.height >= 2 }

  // ---------------------------------------------------------------- planning

  datatype Effect = Blur | Pixelate

  datatype Config = Config(effect: Effect, faceOnlyWhenAvailable: bool)

  datatype Region = Region(roi: PixelRect, trackId: int, trackType: string, targetType: string, methodName: string)

  /** The box of the face, when faces are preferred and there is one of more than a pixel. */
  function FaceTarget(c: Config, b: Box): Option<Box>
  {
    if c.faceOnlyWhenAvailable && b.face.Some? && b.face.value.bbox.w > 1.0 && b.face.value.bbox.h > 1.0 then
      var f := b.face.value.bbox;
      Some(b.(x := f.x, y := f.y, w := f.w, h := f.h, occluded := false))
    else None
  }

  predicate UsesFace(c: Config, b: Box, v: View)
  {
    FaceTarget(c, b).Some? && LargeEnough(MapBox(FaceTarget(c, b).value, v))
  }

  /** The box that is to be covered: the face when its region is large enough, else the body. */
  function TargetOf(c: Config, b: Box, v: View): Box
  {
    if UsesFace(c, b, v) then FaceTarget(c, b).value else b
  }

  predicate Eligible(c: Config, b: Box, v: View)
  {
    && b.privacyAction == ANONYMIZE
    && b.w > 1.0
    && b.h > 1.0
    && LargeEnough(MapBox(TargetOf(c, b, v), v))
  }

  function RegionFor(c: Config, b: Box, v: View): Region
  {
    Region(MapBox(TargetOf(c, b, v), v), b.id, if b.id < 0 then "face" else "body",
           if UsesFace(c, b, v) then "face" else "body", if c.effect == Blur then "blur" else "pixelate")
  }

  /** The positions of the eligible boxes among the first n. */
  function EligibleBoxes(c: Config, boxes: seq<Box>, v: View, n: nat): (r: seq<nat>)
    requires n <= |boxes|
    ensures forall k :: 0 <= k < |r| ==> r[k] < n
  {
    if n == 0 then []
    else EligibleBoxes(c, boxes, v, n - 1) + (if Eligible(c, boxes[n - 1], v) then [n - 1] else [])
  }

  /** Each eligible box is listed exactly once, and no other. */
  lemma {:induction false} EligibleListedOnce(c: Config, boxes: seq<Box>, v: View, n: nat)
    requires n <= |boxes|
    ensures forall i :: i in EligibleBoxes(c, boxes, v, n) <==> 0 <= i < n && Eligible(c, boxes[i], v)
    ensures forall j, k :: 0 <= j < k < |EligibleBoxes(c, boxes, v, n)| ==>
      EligibleBoxes(c, boxes, v, n)[j] < EligibleBoxes(c, boxes, v, n)[k]
  {
    if n > 0 {
      EligibleListedOnce(c, boxes, v, n - 1);
      hide Eligible;
    }
  }

  predicate InsideFrame(r: PixelRect, v: View)
  {
    0 <= r.x && 0 <= r.y && r.x + r.width <= v.cols && r.y + r.height <= v.rows
  }

  class Anonymizer {
    const c: Config
    const pixelationDivisor: int
    const blurKernel: int

    constructor (blur: bool, pixelationDivisor: int, blurKernel: int, faceOnlyWhenAvailable: bool)
      ensures this.pixelationDivisor >= 2 && this.blurKernel >= 3 && this.blurKernel % 2 == 1
      ensures c == Config(if blur then Blur else Pixelate, faceOnlyWhenAvailable)
    {
      c := Config(if blur then Blur else Pixelate, faceOnlyWhenAvailable);
      this.pixelationDivisor := MaxInt(2, pixelationDivisor);
      var kernel := MaxInt(3, blurKernel);
      this.blurKernel := if kernel % 2 == 0 then kernel + 1 else kernel;
    }

    /** One region per eligible box, in the order of the boxes, all inside the frame. */
    method PlannedRegions(boxes: seq<Box>, v: View) returns (regions: seq<Region>)
      ensures |regions| == |EligibleBoxes(c, boxes, v, |boxes|)|
      ensures forall k :: 0 <= k < |regions| ==>
        && regions[k] == RegionFor(c, boxes[EligibleBoxes(c, boxes, v, |boxes|)[k]], v)
        && InsideFrame(regions[k].roi, v)
        && LargeEnough(regions[k].roi)
    {
      regions := [];
      if v.cols == 0 || v.rows == 0 {
        EmptyFrameHasNone(c, boxes, v, |boxes|);
        return;
      }
      for i := 0 to |boxes|
        invariant |regions| == |EligibleBoxes(c, boxes, v, i)|
        invariant forall k :: 0 <= k < |regions| ==>
          && regions[k] == RegionFor(c, boxes[EligibleBoxes(c, boxes, v, i)[k]], v)
          && InsideFrame(regions[k].roi, v)
          && LargeEnough(regions[k].roi)
      {
        var region := PlanRegion(boxes[i], v);
        hide Eligible, RegionFor;
        if region.Some? {
          regions := regions + [region.value];
        }
      }
    }

    method PlanRegion(b: Box, v: View) returns (region: Option<Region>)
      ensures region == if Eligible(c, b, v) then Some(RegionFor(c, b, v)) else None
      ensures region.Some? ==> InsideFrame(region.value.roi, v) && LargeEnough(region.value.roi)
    {
      MapInside(TargetOf(c, b, v), v);
      hide MapBox;
      if b.privacyAction != ANONYMIZE || b.w <= 1.0 || b.h <= 1.0 {
        return None;
      }
      var usingFaceRoi, roiBox := false, b;
      if c.faceOnlyWhenAvailable && b.face.Some? && b.face.value.bbox.w > 1.0 && b.face.value.bbox.h > 1.0 {
        var f := b.face.value.bbox;
        roiBox := b.(x := f.x, y := f.y, w := f.w, h := f.h, occluded := false);
        usingFaceRoi := true;
      }
      var roi := MapBox(roiBox, v);
      if usingFaceRoi && (roi.width < 2 || roi.height < 2) {
        roi := MapBox(b, v);
        usingFaceRoi := false;
      }
      if roi.width < 2 || roi.height < 2 {
        return None;
      }
      region := Some(Region(roi, b.id, if b.id < 0 then "face" else "body", if usingFaceRoi then "face" else "body",
                            if c.effect == Blur then "blur" else "pixelate"));
    }
  }

  lemma MapInside(b: Box, v: View)
    ensures InsideFrame(MapBox(b, v), v)
  {
    hide PixelStart, PixelLength;
  }

  lemma {:induction false} EmptyFrameHasNone(c: Config, boxes: seq<Box>, v: View, n: nat)
    requires n <= |boxes| && (v.cols == 0 || v.rows == 0)
    ensures EligibleBoxes(c, boxes, v, n) == []
  {
    if n > 0 {
      EmptyFrameHasNone(c, boxes, v, n - 1);
      MapInside(TargetOf(c, boxes[n - 1], v), v);
      hide MapBox, TargetOf;
    }
  }

  // ---------------------------------------------------------------- coverage, one axis at a time

  /** A pixel of the frame that an interval touches. */
  predicate Touches(pixel: int, lo: real, hi: real, size: nat)
  {
    0 <= pixel < size && pixel as real < hi && lo < pixel as real + 1.0
  }

  /** Every touched pixel lies in the rounded, inflated interval [start, start + length). */
  ghost predicate CoversAxis(lo: real, hi: real, start: int, length: int, size: nat)
  {
    forall pixel :: Touches(pixel, lo, hi, size) ==> start <= pixel < start + length
  }

  /** What inflation adds on either side, in display pixels. */
  function Margin(side: real, occluded: bool, scale: real): real
  {
    (Inflated(side, occluded) - side) * 0.5 * scale
  }

  /** The margin absorbs the rounding of the start, and that of the length when it rounds down. */
  predicate Absorbs(margin: real, length: real)
  {
    margin >= 0.5 && margin >= 0.5 + length - Lround(length) as real
  }

  /** The axis of a box: it starts at `start`, is `side` long, and is shown at scale and offset. */
  ghost predicate AxisCovered(start: real, side: real, occluded: bool, scale: real, offset: real, size: nat)
  {
    CoversAxis(Shown(start, scale, offset), Shown(start + side, scale, offset),
               PixelStart(start, side, occluded, scale, offset), PixelLength(side, occluded, scale), size)
  }

  predicate AxisAbsorbs(side: real, occluded: bool, scale: real)
  {
    Absorbs(Margin(side, occluded, scale), ShownSide(side, occluded, scale))
  }

  lemma AxisInPixels(start: real, side: real, occluded: bool, scale: real, offset: real)
    ensures Shown(InflatedStart(start, side, occluded), scale, offset) == Shown(start, scale, offset) - Margin(side, occluded, scale)
    ensures Shown(start + side, scale, offset)
         == Shown(start, scale, offset) + ShownSide(side, occluded, scale) - 2.0 * Margin(side, occluded, scale)
  {
    var ew := Inflated(side, occluded);
    hide Inflated;
    assert (start + side * 0.5 - ew * 0.5) * scale == start * scale - (ew - side) * 0.5 * scale;
    assert (start + side) * scale == start * scale + ew * scale - 2.0 * ((ew - side) * 0.5 * scale);
  }

  /** The rounded interval of length `length` begun `margin` before `lo` covers what lies between the margins. */
  lemma AbsorbedIsCovered(lo: real, length: real, margin: real, size: nat)
    requires Absorbs(margin, length)
    ensures CoversAxis(lo, lo + length - 2.0 * margin, Lround(lo - margin), Lround(length), size)
  {
    LroundIsNear(lo - margin);
    hide Lround;
  }

  /** Below that margin some offset leaves a touched pixel uncovered, although the frame holds the whole rounded interval. */
  lemma UnabsorbedIsMissed(length: real, margin: real) returns (lo: real, size: nat, pixel: int)
    requires 0.0 <= 2.0 * margin < length && !Absorbs(margin, length)
    ensures Touches(pixel, lo, lo + length - 2.0 * margin, size)
    ensures var start := Lround(lo - margin);
      0 <= start && start + Lround(length) <= size && !(start <= pixel < start + Lround(length))
  {
    LroundIsNear(length);
    size := Lround(length) + 1;
    if margin < 0.5 {
      lo, pixel := 0.5 + margin, 0;
    } else {
      var short := 0.5 + length - margin - Lround(length) as real;
      var delta := Min(0.25, short / 2.0);
      lo, pixel := 0.5 - delta + margin, Lround(length);
    }
  }

  lemma AxisIsCovered(start: real, side: real, occluded: bool, scale: real, offset: real, size: nat)
    requires AxisAbsorbs(side, occluded, scale)
    ensures AxisCovered(start, side, occluded, scale, offset, size)
  {
    AxisInPixels(start, side, occluded, scale, offset);
    hide Shown, ShownSide, Inflated, InflatedStart, Margin, CoversAxis, Lround;
    AbsorbedIsCovered(Shown(start, scale, offset), ShownSide(side, occluded, scale), Margin(side, occluded, scale), size);
  }

  /** The frame holds the whole rounded, inflated interval. */
  predicate FitsAxis(start: real, side: real, occluded: bool, scale: real, offset: real, size: nat)
  {
    var at := PixelStart(start, side, occluded, scale, offset);
    0 <= at && at + PixelLength(side, occluded, scale) <= size
  }

  predicate TouchesAxis(pixel: int, start: real, side: real, scale: real, offset: real, size: nat)
  {
    Touches(pixel, Shown(start, scale, offset), Shown(start + side, scale, offset), size)
  }

  predicate OnAxis(pixel: int, start: real, side: real, occluded: bool, scale: real, offset: real)
  {
    var at := PixelStart(start, side, occluded, scale, offset);
    at <= pixel < at + PixelLength(side, occluded, scale)
  }

  lemma AxisIsMissed(side: real, occluded: bool, scale: real) returns (offset: real, size: nat, pixel: int)
    requires side > 0.0 && scale > 0.0
    requires !AxisAbsorbs(side, occluded, scale)
    ensures FitsAxis(0.0, side, occluded, scale, offset, size)
    ensures TouchesAxis(pixel, 0.0, side, scale, offset, size) && !OnAxis(pixel, 0.0, side, occluded, scale, offset)
  {
    MarginBelowSide(side, occluded, scale);
    hide ShownSide, Inflated, InflatedStart, Margin, Lround, Absorbs, Touches;
    offset, size, pixel := UnabsorbedIsMissed(ShownSide(side, occluded, scale), Margin(side, occluded, scale));
    AxisInPixels(0.0, side, occluded, scale, offset);
    assert Shown(0.0, scale, offset) == offset;
    hide Shown;
  }

  /** Begun at its margin, an interval lies inside its frame and touches a pixel of it. */
  lemma AxisIsTouched(side: real, occluded: bool, scale: real) returns (offset: real, size: nat, pixel: int)
    requires side > 0.0 && scale > 0.0
    ensures FitsAxis(0.0, side, occluded, scale, offset, size)
    ensures TouchesAxis(pixel, 0.0, side, scale, offset, size)
  {
    MarginBelowSide(side, occluded, scale);
    var length := ShownSide(side, occluded, scale);
    LroundIsNear(length);
    offset, size := Margin(side, occluded, scale), Lround(length) + 1;
    pixel := offset.Floor;
    AxisInPixels(0.0, side, occluded, scale, offset);
    hide ShownSide, Inflated, InflatedStart, Margin;
    assert Shown(0.0, scale, offset) == offset;
    hide Shown;
  }

  lemma MarginBelowSide(side: real, occluded: bool, scale: real)
    requires side > 0.0 && scale > 0.0
    ensures 0.0 <= 2.0 * Margin(side, occluded, scale) < ShownSide(side, occluded, scale)
  {
    var ew := Inflated(side, occluded);
    assert ew >= side;
    hide Inflated;
    assert 2.0 * Margin(side, occluded, scale) == ew * scale - side * scale;
    assert side * scale > 0.0;
    assert (ew - side) * scale >= 0.0;
  }

  /** A margin of one display pixel always suffices. */
  lemma OnePixelSuffices(margin: real, length: real)
    requires margin >= 1.0
    ensures Absorbs(margin, length)
  {
    LroundIsNear(length);
  }

  /** The margin is 15 percent of the shown side, or 27.5 percent for a box that is occluded. */
  lemma FifteenPercent(side: real, scale: real)
    requires side * 1.30 >= 1.0
    ensures Margin(side, false, scale) == 0.15 * side * scale
    ensures Margin(side, true, scale) == 0.275 * side * scale
  {
  }

  // ---------------------------------------------------------------- coverage of a box

  /** The pixel (px, py) of the frame is touched by the box as it is shown. */
  predicate TouchesBox(px: int, py: int, b: Box, v: View)
  {
    && Touches(px, Shown(b.x, v.sx, v.tx), Shown(b.x + b.w, v.sx, v.tx), v.cols)
    && Touches(py, Shown(b.y, v.sy, v.ty), Shown(b.y + b.h, v.sy, v.ty), v.rows)
  }

  predicate InRegion(px: int, py: int, r: PixelRect)
  {
    r.x <= px < r.x + r.width && r.y <= py < r.y + r.height
  }

  predicate MarginsSuffice(b: Box, v: View)
  {
    AxisAbsorbs(b.w, b.occluded, v.sx) && AxisAbsorbs(b.h, b.occluded, v.sy)
  }

  lemma MapCovers(t: Box, v: View, px: int, py: int)
    requires MarginsSuffice(t, v) && TouchesBox(px, py, t, v) && LargeEnough(MapBox(t, v))
    ensures InRegion(px, py, MapBox(t, v))
  {
    hide AxisAbsorbs, Shown, PixelStart, PixelLength;
    AxisIsCovered(t.x, t.w, t.occluded, v.sx, v.tx, v.cols);
    AxisIsCovered(t.y, t.h, t.occluded, v.sy, v.ty, v.rows);
  }

  /** Nothing of an eligible box shows: its region contains every frame pixel its target touches. */
  lemma RegionCoversTarget(c: Config, b: Box, v: View, px: int, py: int)
    requires Eligible(c, b, v) && MarginsSuffice(TargetOf(c, b, v), v)
    requires TouchesBox(px, py, TargetOf(c, b, v), v)
    ensures InRegion(px, py, RegionFor(c, b, v).roi)
  {
    hide MapBox, TargetOf, MarginsSuffice, TouchesBox;
    MapCovers(TargetOf(c, b, v), v, px, py);
  }

  /** The face a box carries, taken as a box of its own. */
  predicate IsFaceOf(face: Box, b: Box)
  {
    b.face.Some? && b.face.value.bbox == Rect(face.x, face.y, face.w, face.h) && !face.occluded
  }

  /** With faces preferred, a face of some size is what is covered. */
  lemma FaceIsCovered(c: Config, b: Box, v: View, face: Box, px: int, py: int)
    requires b.privacyAction == ANONYMIZE && b.w > 1.0 && b.h > 1.0
    requires c.faceOnlyWhenAvailable && IsFaceOf(face, b) && face.w > 1.0 && face.h > 1.0 && LargeEnough(MapBox(face, v))
    requires MarginsSuffice(face, v) && TouchesBox(px, py, face, v)
    ensures EligibleBoxes(c, [b], v, 1) == [0]
    ensures InRegion(px, py, RegionFor(c, b, v).roi) && RegionFor(c, b, v).targetType == "face"
    ensures IsLabelled(RegionFor(c, b, v), c, b)
  {
    SameMap(face, FaceTarget(c, b).value, v);
    MapCovers(face, v, px, py);
    hide MapBox, MarginsSuffice, TouchesBox;
    OneBox(c, b, v);
  }

  /** The region tells whose it is, whether that is a person or a face without one, and how it is covered. */
  predicate IsLabelled(r: Region, c: Config, b: Box)
  {
    && r.trackId == b.id
    && (r.trackType == "face" <==> b.id < 0)
    && (r.trackType == "body" <==> b.id >= 0)
    && (r.methodName == "blur" <==> c.effect.Blur?)
    && (r.methodName == "pixelate" <==> c.effect.Pixelate?)
  }

  lemma SameMap(a: Box, b: Box, v: View)
    requires RectOfBox(a) == RectOfBox(b) && a.occluded == b.occluded
    ensures MapBox(a, v) == MapBox(b, v)
  {
    hide PixelStart, PixelLength;
  }

  function RectOfBox(b: Box): Rect { Rect(b.x, b.y, b.w, b.h) }

  lemma OneBox(c: Config, b: Box, v: View)
    ensures EligibleBoxes(c, [b], v, 1) == if Eligible(c, b, v) then [0] else []
  {
    hide Eligible;
    assert EligibleBoxes(c, [b], v, 0) == [];
  }

  /** Without a face of some size, or when faces are not preferred, the whole body is covered. */
  lemma BodyIsCovered(c: Config, b: Box, v: View, px: int, py: int)
    requires b.privacyAction == ANONYMIZE && b.w > 1.0 && b.h > 1.0 && LargeEnough(MapBox(b, v))
    requires c.faceOnlyWhenAvailable ==>
      forall face: Box :: IsFaceOf(face, b) ==> face.w <= 1.0 || face.h <= 1.0 || !LargeEnough(MapBox(face, v))
    requires MarginsSuffice(b, v) && TouchesBox(px, py, b, v)
    ensures EligibleBoxes(c, [b], v, 1) == [0]
    ensures InRegion(px, py, RegionFor(c, b, v).roi) && RegionFor(c, b, v).targetType == "body"
    ensures IsLabelled(RegionFor(c, b, v), c, b)
  {
    MapCovers(b, v, px, py);
    hide MapBox, MarginsSuffice, TouchesBox;
    OneBox(c, b, v);
    if FaceTarget(c, b).Some? {
      assert IsFaceOf(FaceTarget(c, b).value, b);
    }
  }

  /** Nobody who may be shown is covered. */
  lemma {:induction false} OnlyAnonymizedAreCovered(c: Config, boxes: seq<Box>, v: View, n: nat, i: nat)
    requires n <= |boxes| && i in EligibleBoxes(c, boxes, v, n)
    ensures i < n && boxes[i].privacyAction == ANONYMIZE
  {
    hide TargetOf, MapBox;
    if i in EligibleBoxes(c, boxes, v, n - 1) {
      OnlyAnonymizedAreCovered(c, boxes, v, n - 1, i);
    }
  }

  /** The region contains every frame pixel the target touches. */
  ghost predicate TargetCovered(c: Config, b: Box, v: View)
  {
    forall px, py :: TouchesBox(px, py, TargetOf(c, b, v), v) ==> InRegion(px, py, RegionFor(c, b, v).roi)
  }

  /** What is to be covered has these sides, and the view these scales. */
  predicate TargetHasSides(c: Config, b: Box, v: View, w: real, h: real, occluded: bool, sx: real, sy: real)
  {
    var t := TargetOf(c, b, v);
    t.w == w && t.h == h && t.occluded == occluded && v.sx == sx && v.sy == sy
  }

  /** An anonymized body without a face. */
  function Body(x: real, y: real, w: real, h: real, occluded: bool): Box
  {
    DEFAULT_BOX.(x := x, y := y, w := w, h := h, occluded := occluded)
  }

  lemma BodyIsPlanned(c: Config, b: Box, v: View)
    requires b.privacyAction == ANONYMIZE && b.face.None? && b.w > 1.0 && b.h > 1.0
    requires FitsAxis(b.x, b.w, b.occluded, v.sx, v.tx, v.cols) && FitsAxis(b.y, b.h, b.occluded, v.sy, v.ty, v.rows)
    requires PixelLength(b.w, b.occluded, v.sx) >= 2 && PixelLength(b.h, b.occluded, v.sy) >= 2
    ensures Eligible(c, b, v) && TargetOf(c, b, v) == b
    ensures RegionFor(c, b, v).roi
         == PixelRect(PixelStart(b.x, b.w, b.occluded, v.sx, v.tx), PixelStart(b.y, b.h, b.occluded, v.sy, v.ty),
                      PixelLength(b.w, b.occluded, v.sx), PixelLength(b.h, b.occluded, v.sy))
  {
    hide PixelStart, PixelLength;
  }

  /** Where a margin does not absorb the rounding, some eligible body shows beside its region. */
  lemma BodyIsMissed(c: Config, w: real, h: real, occluded: bool, sx: real, sy: real) returns (b: Box, v: View, px: int, py: int)
    requires w > 1.0 && h > 1.0 && sx > 0.0 && sy > 0.0
    requires PixelLength(w, occluded, sx) >= 2 && PixelLength(h, occluded, sy) >= 2
    requires !(AxisAbsorbs(w, occluded, sx) && AxisAbsorbs(h, occluded, sy))
    ensures Eligible(c, b, v) && TargetOf(c, b, v) == b && TargetHasSides(c, b, v, w, h, occluded, sx, sy)
    ensures TouchesBox(px, py, b, v) && !InRegion(px, py, RegionFor(c, b, v).roi)
  {
    hide AxisAbsorbs, PixelStart, PixelLength, Shown, Touches;
    var tx, ty, cols, rows;
    if !AxisAbsorbs(w, occluded, sx) {
      tx, cols, px := AxisIsMissed(w, occluded, sx);
      ty, rows, py := AxisIsTouched(h, occluded, sy);
    } else {
      tx, cols, px := AxisIsTouched(w, occluded, sx);
      ty, rows, py := AxisIsMissed(h, occluded, sy);
    }
    b, v := Body(0.0, 0.0, w, h, occluded), View(sx, sy, tx, ty, cols, rows);
    hide Eligible, TargetOf, RegionFor;
    BodyIsPlanned(c, b, v);
  }

  /**
    Exactly when everything with given sides is covered wherever it lies: nothing so small is eligible
    at all, or the margins on both axes absorb the rounding of the start and of the length.
  */
  lemma CoveredEverywhereIff(c: Config, w: real, h: real, occluded: bool, sx: real, sy: real)
    requires w > 1.0 && h > 1.0 && sx > 0.0 && sy > 0.0
    ensures (forall b: Box, v: View :: Eligible(c, b, v) && TargetHasSides(c, b, v, w, h, occluded, sx, sy) ==> TargetCovered(c, b, v))
       <==> || PixelLength(w, occluded, sx) < 2
            || PixelLength(h, occluded, sy) < 2
            || (AxisAbsorbs(w, occluded, sx) && AxisAbsorbs(h, occluded, sy))
  {
    if PixelLength(w, occluded, sx) < 2 || PixelLength(h, occluded, sy) < 2 || (AxisAbsorbs(w, occluded, sx) && AxisAbsorbs(h, occluded, sy)) {
      forall b: Box, v: View | Eligible(c, b, v) && TargetHasSides(c, b, v, w, h, occluded, sx, sy)
        ensures TargetCovered(c, b, v)
      {
        LargeRegionIsLong(TargetOf(c, b, v), v);
        AbsorbedTargetCovered(c, b, v);
      }
    } else {
      hide Eligible, TargetHasSides, TouchesBox, InRegion, TargetOf, RegionFor;
      var b, v, px, py := BodyIsMissed(c, w, h, occluded, sx, sy);
      assert !TargetCovered(c, b, v);
    }
  }

  lemma LargeRegionIsLong(t: Box, v: View)
    requires LargeEnough(MapBox(t, v))
    ensures PixelLength(t.w, t.occluded, v.sx) >= 2 && PixelLength(t.h, t.occluded, v.sy) >= 2
  {
    hide PixelStart, PixelLength;
  }

  lemma AbsorbedTargetCovered(c: Config, b: Box, v: View)
    requires Eligible(c, b, v) && MarginsSuffice(TargetOf(c, b, v), v)
    ensures TargetCovered(c, b, v)
  {
    hide Eligible, MarginsSuffice, TouchesBox, InRegion, TargetOf, RegionFor;
    forall px, py | TouchesBox(px, py, TargetOf(c, b, v), v)
      ensures InRegion(px, py, RegionFor(c, b, v).roi)
    {
      RegionCoversTarget(c, b, v, px, py);
    }
  }

  /** A concrete miss: an eligible body 1.5 wide at 0.7 touches pixel (2, 15), but its region ends before column 2. */
  lemma SmallBoxCanShow(c: Config)
    ensures var b, v := Body(0.7, 10.0, 1.5, 20.0, false), View(1.0, 1.0, 0.0, 0.0, 100, 100);
      && Eligible(c, b, v)
      && TargetOf(c, b, v) == b
      && TouchesBox(2, 15, b, v)
      && RegionFor(c, b, v).roi == PixelRect(0, 7, 2, 26)
      && !InRegion(2, 15, RegionFor(c, b, v).roi)
  {
    assert PixelStart(0.7, 1.5, false, 1.0, 0.0) == 0 && PixelLength(1.5, false, 1.0) == 2;
    assert PixelStart(10.0, 20.0, false, 1.0, 0.0) == 7 && PixelLength(20.0, false, 1.0) == 26;
    BodyIsPlanned(c, Body(0.7, 10.0, 1.5, 20.0, false), View(1.0, 1.0, 0.0, 0.0, 100, 100));
  }
}
