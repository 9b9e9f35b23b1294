/** Shared shapes (src/types.ts): marker sets as returned by the marker
    detector, calibration regions and results, and `markersToPoints`. */
module Types {

  datatype Option<T> = None | Some(value: T)

  datatype Point = Point(x: real, y: real)

  /** One corner of a marker set as it arrives from the detector's JSON:
      the key may be missing (`undefined`), explicitly `null`, or carry the
      `[x, y]` pair. The three readers of a marker set treat these
      differently, so all three are kept. */
  datatype MarkerSlot = Undefined | Null | At(x: real, y: real)

  datatype MarkerSet = MarkerSet(
    topLeft: MarkerSlot,
    topRight: MarkerSlot,
    bottomLeft: MarkerSlot,
    bottomRight: MarkerSlot)

  datatype Corner = TopLeft | TopRight | BottomLeft | BottomRight

  function MarkerAt(m: MarkerSet, c: Corner): MarkerSlot
  {
    match c
    case TopLeft => m.topLeft
    case TopRight => m.topRight
    case BottomLeft => m.bottomLeft
    case BottomRight => m.bottomRight
  }

  /** Every corner carries a position (the truthiness test used by the
      fine-tuning stages). */
  predicate AllCornersFound(m: MarkerSet)
  {
    m.topLeft.At? && m.topRight.At? && m.bottomLeft.At? && m.bottomRight.At?
  }

  datatype CalibrationStatus = Calibrated | Calibrating | Failed

  /** A normalised region: fractions of the camera frame. */
  datatype Calibration = Calibration(
    x: real, y: real, width: real, height: real,
    markers: Option<seq<Point>>)

  datatype CalibrationResult = CalibrationResult(status: CalibrationStatus, calibration: Calibration)

  predicate InUnitRange(v: real)
  {
    0.0 <= v <= 1.0
  }

  /** All four numeric fields of a region are fractions in [0, 1]. */
  predicate UnitRegion(c: Calibration)
  {
    InUnitRange(c.x) && InUnitRange(c.y) && InUnitRange(c.width) && InUnitRange(c.height)
  }

  function CountPresent(slots: seq<MarkerSlot>): (n: nat)
    ensures n <= |slots|
  {
    if slots == [] then 0
    else (if slots[0].At? then 1 else 0) + CountPresent(slots[1..])
  }

  /** The `filter(x => x != undefined && x != null).map(...)` part of
      `markersToPoints`, over any list of slots. */
  function PresentPoints(slots: seq<MarkerSlot>): (r: seq<Point>)
    ensures |r| == CountPresent(slots)
    ensures forall k :: 0 <= k < |r| ==> At(r[k].x, r[k].y) in slots
  {
    if slots == [] then []
    else if slots[0].At? then [Point(slots[0].x, slots[0].y)] + PresentPoints(slots[1..])
    else PresentPoints(slots[1..])
  }

  /** The fixed corner order used by `markersToPoints`: clockwise from the
      top left. */
  function CornerOrder(m: MarkerSet): seq<MarkerSlot>
  {
    [m.topLeft, m.topRight, m.bottomRight, m.bottomLeft]
  }

  function MarkersToPoints(m: MarkerSet): (r: seq<Point>)
    ensures |r| == CountPresent(CornerOrder(m)) <= 4
  {
    PresentPoints(CornerOrder(m))
  }

  /** The points a single slot contributes: one point when it carries a
      position, none when it is missing or null. */
  function SlotPoints(s: MarkerSlot): (r: seq<Point>)
    ensures |r| <= 1
    ensures |r| == 1 <==> s.At?
    ensures s.At? ==> r[0] == Point(s.x, s.y)
  {
    if s.At? then [Point(s.x, s.y)] else []
  }

  lemma PresentPointsCons(s: MarkerSlot, rest: seq<MarkerSlot>)
    ensures PresentPoints([s] + rest) == SlotPoints(s) + PresentPoints(rest)
  {
    assert ([s] + rest)[0] == s;
    assert ([s] + rest)[1..] == rest;
  }

  /** `markersToPoints` emits top-left, top-right, bottom-right, bottom-left,
      skipping each corner that is missing or null. */
  lemma MarkersToPointsOrder(m: MarkerSet)
    ensures MarkersToPoints(m) ==
      SlotPoints(m.topLeft) + SlotPoints(m.topRight) + SlotPoints(m.bottomRight) + SlotPoints(m.bottomLeft)
  {
    var s := CornerOrder(m);
    assert s == [m.topLeft] + ([m.topRight] + ([m.bottomRight] + ([m.bottomLeft] + [])));
    PresentPointsCons(m.topLeft, [m.topRight] + ([m.bottomRight] + ([m.bottomLeft] + [])));
    PresentPointsCons(m.topRight, [m.bottomRight] + ([m.bottomLeft] + []));
    PresentPointsCons(m.bottomRight, [m.bottomLeft] + []);
    PresentPointsCons(m.bottomLeft, []);
  }

  /** With every corner present the result is exactly the four corners. */
  lemma AllCornersGiveFourPoints(m: MarkerSet)
    requires AllCornersFound(m)
    ensures MarkersToPoints(m) ==
      [Point(m.topLeft.x, m.topLeft.y), Point(m.topRight.x, m.topRight.y),
       Point(m.bottomRight.x, m.bottomRight.y), Point(m.bottomLeft.x, m.bottomLeft.y)]
  {
    MarkersToPointsOrder(m);
  }
}
