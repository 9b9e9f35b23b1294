/** The simple viewport calibrator of src/viewportcalibrator.ts: a binary
    search between the largest region known to lose the markers (`knownMax`)
    and the largest region known to show them (`knownMin`).

    Each call after the first looks for the markers up to ten times; the
    camera and the marker detector are not modelled, only what each attempt
    produced (`Attempt`). `CalibrateStep`, `Search` and `NextStep` are the
    specification of one call; `ViewportIterator` is the object whose
    methods update its fields in place and are proved to follow them. */
module ViewportCalibrator {
  import opened Types
  import opened Utils

  /** Attempts per call before giving up on the markers. */
  const MaxAttempts: int := 10
  /** Smallest width and height gap still worth bisecting. */
  const Tolerance: real := 0.10
  /** Inset applied to a region that is close enough to the known maximum. */
  const Padding: real := 0.05

  /** What one capture-and-detect attempt produced: an exception from the
      camera or the detector, no markers, or a marker set. */
  datatype Attempt = Thrown | Nothing | Got(markers: MarkerSet)

  /** What the attempt loop ends with. */
  datatype Detection = DetectionFailed | NotFound | Found(markers: MarkerSet)

  function Classify(a: Attempt): Detection
  {
    match a
    case Thrown => DetectionFailed
    case Nothing => NotFound
    case Got(m) => Found(m)
  }

  /** The attempt loop: the first attempt that did not come back empty
      decides; when all are empty the markers were not found. */
  function FirstDetection(outcomes: seq<Attempt>): (d: Detection)
    ensures d.NotFound? <==> forall i :: 0 <= i < |outcomes| ==> outcomes[i].Nothing?
    ensures !d.NotFound? ==>
      exists k :: 0 <= k < |outcomes| && d == Classify(outcomes[k])
        && forall i :: 0 <= i < k ==> outcomes[i].Nothing?
  {
    if outcomes == [] then NotFound
    else if outcomes[0].Nothing? then
      var d := FirstDetection(outcomes[1..]);
      assert forall i :: 1 <= i < |outcomes| ==> outcomes[i] == outcomes[1..][i - 1];
      if d.NotFound? then d
      else
        var k :| 0 <= k < |outcomes[1..]| && d == Classify(outcomes[1..][k])
          && forall i :: 0 <= i < k ==> outcomes[1..][i].Nothing?;
        assert d == Classify(outcomes[k + 1]);
        d
    else Classify(outcomes[0])
  }

  /** The loop of `calibrate` that captures a frame and asks for the markers
      up to MAX_ATTEMPTS times; an exception leaves the loop at once. */
  method AttemptDetection(outcomes: seq<Attempt>) returns (d: Detection)
    requires |outcomes| == MaxAttempts
    ensures d == FirstDetection(outcomes)
    ensures d.NotFound? <==> forall i :: 0 <= i < |outcomes| ==> outcomes[i].Nothing?
    ensures d.Found? ==> exists k :: 0 <= k < |outcomes| && outcomes[k] == Got(d.markers)
  {
    var i := 0;
    while i < MaxAttempts
      invariant 0 <= i <= MaxAttempts
      invariant forall j :: 0 <= j < i ==> outcomes[j].Nothing?
      invariant FirstDetection(outcomes) == FirstDetection(outcomes[i..])
    {
      assert outcomes[i..][1..] == outcomes[i + 1..];
      match outcomes[i]
      case Thrown =>
        return DetectionFailed;
      case Got(m) =>
        return Found(m);
      case Nothing =>
        i := i + 1;
    }
    assert outcomes[i..] == [];
    d := NotFound;
  }

  /** Everything the iterator's calls read and write. */
  datatype ViewState = ViewState(
    lastCalibrationResult: Option<CalibrationResult>,
    successCaseFound: bool,
    knownMax: Calibration,
    knownMin: Calibration)

  /** Start with the full frame as the known maximum and its centre point
      as the known minimum. */
  function Initial(): ViewState
  {
    ViewState(None, false,
      Calibration(0.0, 0.0, 1.0, 1.0, None),
      Calibration(0.5, 0.5, 0.0, 0.0, None))
  }

  /** The region tried first, before any frame is looked at. */
  function FirstResult(): CalibrationResult
  {
    CalibrationResult(Calibrating, Calibration(0.05, 0.05, 0.8, 0.8, None))
  }

  /** `big` is wider AND taller than `small` by more than the tolerance. */
  predicate GapExceeds(big: Calibration, small: Calibration)
  {
    big.width - small.width > Tolerance && big.height - small.height > Tolerance
  }

  /** The region half-way between `a` and `b`, field by field, clamped. */
  function Toward(a: Calibration, b: Calibration): (r: Calibration)
    ensures UnitRegion(r) && r.markers == None
    ensures UnitRegion(a) && UnitRegion(b) ==>
      && r.x - a.x == b.x - r.x && r.y - a.y == b.y - r.y
      && r.width - a.width == b.width - r.width && r.height - a.height == b.height - r.height
  {
    Calibration(
      Clamp(Average(a.x, b.x), 0.0, 1.0),
      Clamp(Average(a.y, b.y), 0.0, 1.0),
      Clamp(Average(a.width, b.width), 0.0, 1.0),
      Clamp(Average(a.height, b.height), 0.0, 1.0),
      None)
  }

  /** The region moved in by the padding on the top and left and shrunk by
      four paddings, clamped. */
  function Padded(c: Calibration): (r: Calibration)
    ensures UnitRegion(r) && r.markers == None
    ensures 0.0 <= c.x <= 0.95 ==> r.x == c.x + Padding
    ensures 0.0 <= c.y <= 0.95 ==> r.y == c.y + Padding
    ensures 0.2 <= c.width <= 1.0 ==> r.width == c.width - 4.0 * Padding
    ensures 0.2 <= c.height <= 1.0 ==> r.height == c.height - 4.0 * Padding
    ensures c.x < -Padding ==> r.x == 0.0
    ensures c.y < -Padding ==> r.y == 0.0
    ensures c.x > 1.0 - Padding ==> r.x == 1.0
    ensures c.y > 1.0 - Padding ==> r.y == 1.0
    ensures c.width < 0.2 ==> r.width == 0.0
    ensures c.height < 0.2 ==> r.height == 0.0
    ensures c.width > 1.2 ==> r.width == 1.0
    ensures c.height > 1.2 ==> r.height == 1.0
  {
    Calibration(
      Clamp(c.x + Padding, 0.0, 1.0),
      Clamp(c.y + Padding, 0.0, 1.0),
      Clamp(c.width - 4.0 * Padding, 0.0, 1.0),
      Clamp(c.height - 4.0 * Padding, 0.0, 1.0),
      None)
  }

  /** `binarySearchCalibration`: the next region to try, given whether the
      markers were found in the current one. */
  function Search(v: ViewState, status: CalibrationStatus): (ViewState, CalibrationResult)
  {
    if v.lastCalibrationResult.None? then
      (v, CalibrationResult(Failed, v.knownMin))
    else
      var cur := v.lastCalibrationResult.value.calibration;
      if status == Calibrated then
        var found := v.(successCaseFound := true);
        if GapExceeds(v.knownMax, cur) then
          (found.(knownMin := cur), CalibrationResult(Calibrating, Toward(cur, v.knownMax)))
        else
          (found, CalibrationResult(Calibrated, Padded(cur)))
      else
        var missed := v.(knownMax := cur);
        if GapExceeds(cur, v.knownMin) then
          (missed, CalibrationResult(Calibrating, Toward(cur, v.knownMin)))
        else if v.successCaseFound then
          (missed, CalibrationResult(Calibrated, v.knownMin))
        else
          (missed, CalibrationResult(Failed, v.knownMin))
  }

  /** The current region with the detected markers attached. */
  function WithMarkers(v: ViewState, m: MarkerSet): ViewState
    requires v.lastCalibrationResult.Some?
  {
    var last := v.lastCalibrationResult.value;
    v.(lastCalibrationResult := Some(last.(calibration := last.calibration.(markers := Some(MarkersToPoints(m))))))
  }

  /** Record `r` as the last result. */
  function Remember(v: ViewState, r: CalibrationResult): ViewState
  {
    v.(lastCalibrationResult := Some(r))
  }

  /** `calibrate`: one call, given what each of the attempts produced. */
  function CalibrateStep(v: ViewState, outcomes: seq<Attempt>): (ViewState, CalibrationResult)
  {
    if v.lastCalibrationResult.None? then
      (Remember(v, FirstResult()), FirstResult())
    else
      match FirstDetection(outcomes)
      case DetectionFailed =>
        var r := CalibrationResult(Failed, v.lastCalibrationResult.value.calibration);
        (Remember(v, r), r)
      case NotFound =>
        var next := Search(v, Calibrating);
        (Remember(next.0, next.1), next.1)
      case Found(m) =>
        var next := Search(WithMarkers(v, m), Calibrated);
        (Remember(next.0, next.1), next.1)
  }

  /** The status `next` compares against: that of the last result, and
      CALIBRATING before the first call. */
  function LastStatus(v: ViewState): CalibrationStatus
  {
    if v.lastCalibrationResult.Some? then v.lastCalibrationResult.value.status else Calibrating
  }

  /** `next`: always calls `calibrate`; done when the status before the call
      was not CALIBRATING. */
  function NextStep(v: ViewState, outcomes: seq<Attempt>): (ViewState, CalibrationResult, bool)
  {
    var step := CalibrateStep(v, outcomes);
    (step.0, step.1, LastStatus(v) != Calibrating)
  }

  /** Every region the iterator holds is a fraction of the frame. */
  predicate Inv(v: ViewState)
  {
    && UnitRegion(v.knownMax)
    && UnitRegion(v.knownMin)
    && (v.lastCalibrationResult.Some? ==> UnitRegion(v.lastCalibrationResult.value.calibration))
  }

  class ViewportIterator {
    var lastCalibrationResult: Option<CalibrationResult>
    var successCaseFound: bool
    var knownMax: Calibration
    var knownMin: Calibration

    function State(): ViewState
      reads this
    {
      ViewState(lastCalibrationResult, successCaseFound, knownMax, knownMin)
    }

    predicate Valid()
      reads this
    {
      Inv(State())
    }

    constructor()
      ensures State() == Initial() && Valid()
    {
      lastCalibrationResult := None;
      successCaseFound := false;
      knownMax := Calibration(0.0, 0.0, 1.0, 1.0, None);
      knownMin := Calibration(0.5, 0.5, 0.0, 0.0, None);
    }

    method BinarySearchCalibration(status: CalibrationStatus) returns (r: CalibrationResult)
      modifies this
      ensures (State(), r) == Search(old(State()), status)
    {
      if lastCalibrationResult.None? {
        return CalibrationResult(Failed, knownMin);
      }
      var cur := lastCalibrationResult.value.calibration;
      if status == Calibrated {
        successCaseFound := true;
        if GapExceeds(knownMax, cur) {
          var bigger := Toward(cur, knownMax);
          knownMin := cur;
          return CalibrationResult(Calibrating, bigger);
        }
        return CalibrationResult(Calibrated, Padded(cur));
      }
      knownMax := cur;
      if GapExceeds(cur, knownMin) {
        return CalibrationResult(Calibrating, Toward(cur, knownMin));
      }
      if successCaseFound {
        return CalibrationResult(Calibrated, knownMin);
      }
      return CalibrationResult(Failed, knownMin);
    }

    method Calibrate(outcomes: seq<Attempt>) returns (r: CalibrationResult)
      requires |outcomes| == MaxAttempts
      modifies this
      ensures (State(), r) == CalibrateStep(old(State()), outcomes)
    {
      if lastCalibrationResult.None? {
        lastCalibrationResult := Some(FirstResult());
        return FirstResult();
      }
      var status := Calibrating;
      var d := AttemptDetection(outcomes);
      if d.DetectionFailed? {
        r := CalibrationResult(Failed, lastCalibrationResult.value.calibration);
        lastCalibrationResult := Some(r);
        return;
      }
      if d.Found? {
        status := Calibrated;
        var last := lastCalibrationResult.value;
        lastCalibrationResult := Some(last.(calibration := last.calibration.(markers := Some(MarkersToPoints(d.markers)))));
      }
      r := BinarySearchCalibration(status);
      lastCalibrationResult := Some(r);
    }

    method Next(outcomes: seq<Attempt>) returns (r: CalibrationResult, done: bool)
      requires |outcomes| == MaxAttempts
      requires Valid()
      modifies this
      ensures Valid()
      ensures (State(), r, done) == NextStep(old(State()), outcomes)
    {
      var lastStatus := if lastCalibrationResult.Some? then lastCalibrationResult.value.status else Calibrating;
      ghost var before := State();
      r := Calibrate(outcomes);
      done := lastStatus != Calibrating;
      CalibrateStepKeepsInv(before, outcomes);
    }
  }

  // ---------------------------------------------------------------------
  // Properties
  // ---------------------------------------------------------------------

  lemma InitialInv()
    ensures Inv(Initial())
  {
  }

  /** Every call keeps all regions inside the frame, and so every reported
      region is a fraction of the frame. */
  lemma CalibrateStepKeepsInv(v: ViewState, outcomes: seq<Attempt>)
    requires Inv(v)
    ensures Inv(CalibrateStep(v, outcomes).0)
    ensures UnitRegion(CalibrateStep(v, outcomes).1.calibration)
  {
    if v.lastCalibrationResult.Some? {
      match FirstDetection(outcomes)
      case DetectionFailed =>
      case NotFound =>
      case Found(m) =>
        assert Inv(WithMarkers(v, m));
    }
  }

  /** The first call looks at no frame and proposes (0.05, 0.05, 0.8, 0.8). */
  lemma FirstCall(outcomes: seq<Attempt>)
    ensures CalibrateStep(Initial(), outcomes).1 == CalibrationResult(Calibrating, Calibration(0.05, 0.05, 0.8, 0.8, None))
    ensures NextStep(Initial(), outcomes).2 == false
  {
  }

  /** An exception from the camera or the detector fails the call with the
      previous region and leaves the search bounds alone. */
  lemma ErrorKeepsRegion(v: ViewState, outcomes: seq<Attempt>)
    requires v.lastCalibrationResult.Some?
    requires FirstDetection(outcomes) == DetectionFailed
    ensures var (w, r) := CalibrateStep(v, outcomes);
      && r == CalibrationResult(Failed, v.lastCalibrationResult.value.calibration)
      && w == v.(lastCalibrationResult := Some(r))
  {
  }

  /** How the status of a search is decided: the search goes on (bigger
      after a success, smaller after a miss) exactly while both the width and
      the height gap to the other bound exceed the tolerance; a miss with a
      small gap fails exactly when no success was ever seen. */
  lemma SearchStatus(v: ViewState, status: CalibrationStatus)
    requires v.lastCalibrationResult.Some?
    ensures var cur := v.lastCalibrationResult.value.calibration;
      var (w, r) := Search(v, status);
      && (r.status == Calibrating <==>
            (status == Calibrated && GapExceeds(v.knownMax, cur))
            || (status != Calibrated && GapExceeds(cur, v.knownMin)))
      && (r.status == Failed <==>
            status != Calibrated && !GapExceeds(cur, v.knownMin) && !v.successCaseFound)
      && w.successCaseFound == (v.successCaseFound || status == Calibrated)
      && w.lastCalibrationResult == v.lastCalibrationResult
  {
  }

  /** After a success with room left, the region found becomes the known
      minimum and the next region is half-way to the known maximum: the gap
      to the maximum halves in every field. */
  lemma GoBiggerHalvesGap(v: ViewState)
    requires Inv(v) && v.lastCalibrationResult.Some?
    requires GapExceeds(v.knownMax, v.lastCalibrationResult.value.calibration)
    ensures var cur := v.lastCalibrationResult.value.calibration;
      var (w, r) := Search(v, Calibrated);
      && w.knownMin == cur && w.knownMax == v.knownMax
      && v.knownMax.width - r.calibration.width == (v.knownMax.width - cur.width) / 2.0
      && v.knownMax.height - r.calibration.height == (v.knownMax.height - cur.height) / 2.0
      && v.knownMax.x - r.calibration.x == (v.knownMax.x - cur.x) / 2.0
      && v.knownMax.y - r.calibration.y == (v.knownMax.y - cur.y) / 2.0
      && cur.width < r.calibration.width < v.knownMax.width
      && cur.height < r.calibration.height < v.knownMax.height
  {
  }

  /** After a miss, the region tried becomes the known maximum and, while
      there is room, the next region is half-way to the known minimum. */
  lemma GoSmallerHalvesGap(v: ViewState)
    requires Inv(v) && v.lastCalibrationResult.Some?
    requires GapExceeds(v.lastCalibrationResult.value.calibration, v.knownMin)
    ensures var cur := v.lastCalibrationResult.value.calibration;
      var (w, r) := Search(v, Calibrating);
      && w.knownMax == cur && w.knownMin == v.knownMin
      && r.calibration.width - v.knownMin.width == (cur.width - v.knownMin.width) / 2.0
      && r.calibration.height - v.knownMin.height == (cur.height - v.knownMin.height) / 2.0
      && r.calibration.x - v.knownMin.x == (cur.x - v.knownMin.x) / 2.0
      && r.calibration.y - v.knownMin.y == (cur.y - v.knownMin.y) / 2.0
      && v.knownMin.width < r.calibration.width < cur.width
      && v.knownMin.height < r.calibration.height < cur.height
  {
  }

  /** A success close enough to the known maximum ends the search with the
      region inset by the padding (CALIBRATED). */
  lemma CloseSuccessIsPadded(v: ViewState)
    requires v.lastCalibrationResult.Some?
    requires !GapExceeds(v.knownMax, v.lastCalibrationResult.value.calibration)
    ensures Search(v, Calibrated).1 == CalibrationResult(Calibrated, Padded(v.lastCalibrationResult.value.calibration))
  {
  }

  /** A miss close enough to the known minimum ends the search on the known
      minimum: CALIBRATED when some region ever showed the markers, FAILED
      otherwise. */
  lemma CloseMissFallsBackToMin(v: ViewState)
    requires v.lastCalibrationResult.Some?
    requires !GapExceeds(v.lastCalibrationResult.value.calibration, v.knownMin)
    ensures Search(v, Calibrating).1.calibration == v.knownMin
    ensures Search(v, Calibrating).1.status == (if v.successCaseFound then Calibrated else Failed)
  {
  }

  /** Once a success has been seen it is never forgotten. */
  lemma SuccessIsRemembered(v: ViewState, outcomes: seq<Attempt>)
    requires v.successCaseFound
    ensures CalibrateStep(v, outcomes).0.successCaseFound
  {
  }

  /** The markers detected in a region that becomes the known minimum stay
      attached to it. */
  lemma DetectedMarkersKept(v: ViewState, outcomes: seq<Attempt>, m: MarkerSet)
    requires v.lastCalibrationResult.Some?
    requires FirstDetection(outcomes) == Found(m)
    requires GapExceeds(v.knownMax, v.lastCalibrationResult.value.calibration)
    ensures CalibrateStep(v, outcomes).0.knownMin.markers == Some(MarkersToPoints(m))
  {
  }

  /** `next` reports done exactly when the result before the call was not
      CALIBRATING: a FAILED or CALIBRATED result is handed out with done
      false, and the call after it reports done. Either way it calls
      `calibrate`. */
  lemma NextDoneIff(v: ViewState, outcomes: seq<Attempt>)
    ensures NextStep(v, outcomes).2 <==>
      (v.lastCalibrationResult.Some? && v.lastCalibrationResult.value.status != Calibrating)
    ensures (NextStep(v, outcomes).0, NextStep(v, outcomes).1) == CalibrateStep(v, outcomes)
  {
  }
}
