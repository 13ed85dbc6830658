/** The values the pipeline stages exchange (core/include/pipeline/types.hpp). */
module Types {
  datatype Option<+T> = None | Some(value: T)

  datatype Point = Point(x: real, y: real)

  datatype Rect = Rect(x: real, y: real, w: real, h: real)

  const NO_POINT := Point(0.0, 0.0)

  type Landmarks = s: seq<Point> | |s| == 5 witness [NO_POINT, NO_POINT, NO_POINT, NO_POINT, NO_POINT]

  datatype FaceObservation = FaceObservation(
    bbox: Rect,
    landmarks: Landmarks,
    landmarkCount: int,
    score: real,
    frameId: int,
    isFresh: bool)

  datatype Box = Box(
    x: real,
    y: real,
    w: real,
    h: real,
    id: int,
    score: real,
    occluded: bool,
    identityKey: string,
    identityConfidence: real,
    privacyAction: string,
    recognitionState: string,
    face: Option<FaceObservation>)

  const ANONYMIZE := "anonymize"
  const ALLOW := "allow"

  ghost predicate AllAnonymized(boxes: seq<Box>)
  {
    forall i :: 0 <= i < |boxes| ==> boxes[i].privacyAction == ANONYMIZE
  }

  /** A box as its default member initialisers leave it. */
  const DEFAULT_BOX := Box(0.0, 0.0, 0.0, 0.0, -1, 0.0, false, "", 0.0, ANONYMIZE, "", None)
}
