/** The five-stage viewport calibration of src/advancedviewportcalibrator.ts.

    The rectangle is held in cartesian units (0..100 of the camera frame) as a
    centre, a width and a height. Every step consumes one `Frame`: the marker
    set the detector returned for the frame just captured, or the error the
    camera or the detector raised. `CalibrateStep` and `NextStep` are the
    specification of one step; `CalibrationIterator` is the object whose
    methods update its fields in place and are proved to follow them. */
module AdvancedCalibrator {
  import opened Types
  import opened Utils

  const ExpansionStep: int := 5
  const MinSize: int := 25
  const Buffer: int := 5
  const FinalBuffer: int := 5
  const MaxStageIterations: int := 50
  const RequiredConsecutiveSuccesses: int := 10
  /** Widest / tallest the rectangle may grow. */
  const MaxSide: int := 90
  /** Reaching this size ends an expansion stage. */
  const PullbackThreshold: int := 85

  datatype Stage = Init | Vertical | VerticalFineTune | Horizontal | HorizontalFineTune | Done

  /** The four edges of the rectangle, each watched through two corner markers. */
  datatype Pair = LeftPair | RightPair | TopPair | BottomPair

  datatype Frame = Detected(markers: MarkerSet) | CollaboratorError

  function PairMarkers(p: Pair): (Corner, Corner)
  {
    match p
    case LeftPair => (TopLeft, BottomLeft)
    case RightPair => (TopRight, BottomRight)
    case TopPair => (TopLeft, TopRight)
    case BottomPair => (BottomLeft, BottomRight)
  }

  /** `isPairVisible`: only the names of the two markers matter; a marker
      that is `null` still counts, only a missing key does not. */
  function IsPairVisible(m: MarkerSet, p: Pair): (r: bool)
    ensures p == LeftPair ==> (r <==> !m.topLeft.Undefined? && !m.bottomLeft.Undefined?)
    ensures p == RightPair ==> (r <==> !m.topRight.Undefined? && !m.bottomRight.Undefined?)
    ensures p == TopPair ==> (r <==> !m.topLeft.Undefined? && !m.topRight.Undefined?)
    ensures p == BottomPair ==> (r <==> !m.bottomLeft.Undefined? && !m.bottomRight.Undefined?)
  {
    var (first, second) := PairMarkers(p);
    !MarkerAt(m, first).Undefined? && !MarkerAt(m, second).Undefined?
  }

  /** Everything the iterator's steps read and write. */
  datatype CalState = CalState(
    stage: Stage,
    stageIterationCount: int,
    consecutiveSuccesses: int,
    centerX: int,
    centerY: int,
    width: int,
    height: int,
    leftPairLastSeen: bool,
    rightPairLastSeen: bool,
    topPairLastSeen: bool,
    bottomPairLastSeen: bool)

  function Initial(): CalState
  {
    CalState(Init, 0, 0, 50, 50, 50, 50, false, false, false, false)
  }

  function LastSeen(s: CalState, p: Pair): bool
  {
    match p
    case LeftPair => s.leftPairLastSeen
    case RightPair => s.rightPairLastSeen
    case TopPair => s.topPairLastSeen
    case BottomPair => s.bottomPairLastSeen
  }

  /** `cartesianToCalibration`: centre and size in 0..100 to origin and size
      in 0..1, every field clamped into [0, 1]. */
  function CartesianToCalibration(s: CalState): (c: Calibration)
    ensures UnitRegion(c) && c.markers == None
    ensures 0 <= s.width <= 100 ==> c.width == s.width as real / 100.0
    ensures 0 <= s.height <= 100 ==> c.height == s.height as real / 100.0
    ensures 0 <= 2 * s.centerX - s.width <= 200 ==> c.x == (s.centerX as real - s.width as real / 2.0) / 100.0
    ensures 0 <= 2 * s.centerY - s.height <= 200 ==> c.y == (s.centerY as real - s.height as real / 2.0) / 100.0
  {
    Calibration(
      Clamp((s.centerX as real - s.width as real / 2.0) / 100.0, 0.0, 1.0),
      Clamp((s.centerY as real - s.height as real / 2.0) / 100.0, 0.0, 1.0),
      Clamp(s.width as real / 100.0, 0.0, 1.0),
      Clamp(s.height as real / 100.0, 0.0, 1.0),
      None)
  }

  /** `processVerticalExpansion`: the new state and whether the stage is complete. */
  function VerticalExpansion(s: CalState, m: MarkerSet): (CalState, bool)
  {
    var leftVisible := IsPairVisible(m, LeftPair);
    var rightVisible := IsPairVisible(m, RightPair);
    var leftLost := !leftVisible && s.leftPairLastSeen;
    var rightLost := !rightVisible && s.rightPairLastSeen;
    var seen := s.(leftPairLastSeen := leftVisible, rightPairLastSeen := rightVisible);
    if leftLost || rightLost then
      var newWidth := MaxInt(MinSize, s.width - ExpansionStep);
      if leftLost && !rightLost then
        (seen.(centerX := s.centerX + ExpansionStep, width := newWidth), false)
      else if rightLost && !leftLost then
        (seen.(centerX := s.centerX - ExpansionStep, width := newWidth), false)
      else
        (seen.(width := s.width - Buffer), true)
    else if leftVisible && rightVisible then
      var grown := MinInt(MaxSide, s.width + ExpansionStep);
      if grown == s.width then
        (seen.(width := grown - Buffer), true)
      else if grown >= PullbackThreshold then
        (seen.(width := grown - Buffer), true)
      else
        (seen.(width := grown), false)
    else
      (seen, false)
  }

  /** `processHorizontalExpansion`: the same rules on the height and the
      vertical centre, watched through the top and bottom pairs. Unlike the
      vertical stage there is no "width did not change" test. */
  function HorizontalExpansion(s: CalState, m: MarkerSet): (CalState, bool)
  {
    var topVisible := IsPairVisible(m, TopPair);
    var bottomVisible := IsPairVisible(m, BottomPair);
    var topLost := !topVisible && s.topPairLastSeen;
    var bottomLost := !bottomVisible && s.bottomPairLastSeen;
    var seen := s.(topPairLastSeen := topVisible, bottomPairLastSeen := bottomVisible);
    if topLost || bottomLost then
      var newHeight := MaxInt(MinSize, s.height - ExpansionStep);
      if topLost && !bottomLost then
        (seen.(centerY := s.centerY + ExpansionStep, height := newHeight), false)
      else if bottomLost && !topLost then
        (seen.(centerY := s.centerY - ExpansionStep, height := newHeight), false)
      else
        (seen.(height := s.height - Buffer), true)
    else if topVisible && bottomVisible then
      var grown := MinInt(MaxSide, s.height + ExpansionStep);
      if grown >= PullbackThreshold then
        (seen.(height := grown - Buffer), true)
      else
        (seen.(height := grown), false)
    else
      (seen, false)
  }

  /** `processFineTuning`: a frame missing any marker resets the success
      streak and shrinks the stage's dimension; ten frames in a row with all
      four markers end the stage, the last stage also pulling both
      dimensions in by the final buffer. */
  function FineTuning(s: CalState, m: MarkerSet): (CalState, bool)
  {
    if !AllCornersFound(m) then
      var reset := s.(consecutiveSuccesses := 0);
      if s.stage == VerticalFineTune then
        (reset.(width := MaxInt(MinSize, s.width - Buffer)), false)
      else if s.stage == HorizontalFineTune then
        (reset.(height := MaxInt(MinSize, s.height - Buffer)), false)
      else
        (reset, false)
    else
      var streak := s.(consecutiveSuccesses := s.consecutiveSuccesses + 1);
      if streak.consecutiveSuccesses >= RequiredConsecutiveSuccesses then
        if s.stage == HorizontalFineTune then
          (streak.(width := MaxInt(MinSize, s.width - FinalBuffer),
                   height := MaxInt(MinSize, s.height - FinalBuffer)), true)
        else
          (streak, true)
      else
        (streak, false)
  }

  /** Moving to a new stage clears the stage's counters. */
  function EnterStage(s: CalState, next: Stage): CalState
  {
    s.(stage := next, stageIterationCount := 0, consecutiveSuccesses := 0)
  }

  function Report(status: CalibrationStatus, s: CalState): CalibrationResult
  {
    CalibrationResult(status, CartesianToCalibration(s))
  }

  /** The stage switch of `calibrate`, on a frame whose markers were
      detected, after the iteration count has been taken. */
  function StageStep(s: CalState, m: MarkerSet): (CalState, CalibrationResult)
  {
    match s.stage
    case Vertical =>
      var (t, complete) := VerticalExpansion(s, m);
      var u := if complete then EnterStage(t, VerticalFineTune) else t;
      (u, Report(Calibrating, u))
    case VerticalFineTune =>
      var (t, complete) := FineTuning(s, m);
      var u := if complete then EnterStage(t, Horizontal) else t;
      (u, Report(Calibrating, u))
    case Horizontal =>
      var (t, complete) := HorizontalExpansion(s, m);
      var u := if complete then EnterStage(t, HorizontalFineTune) else t;
      (u, Report(Calibrating, u))
    case HorizontalFineTune =>
      var (t, complete) := FineTuning(s, m);
      if complete then (t.(stage := Done), Report(Calibrated, t))
      else (t, Report(Calibrating, t))
    case _ =>
      (s, Report(Calibrating, s))
  }

  /** `calibrate`: one step of the state machine. */
  function CalibrateStep(s: CalState, frame: Frame): (CalState, CalibrationResult)
  {
    var counted := s.(stageIterationCount := s.stageIterationCount + 1);
    if counted.stageIterationCount > MaxStageIterations then
      (counted, Report(Failed, counted))
    else if s.stage == Init then
      var started := EnterStage(counted, Vertical);
      (started, Report(Calibrating, started))
    else if frame.CollaboratorError? then
      (counted, Report(Failed, counted))
    else
      StageStep(counted, frame.markers)
  }

  /** The iterator: the state plus the last result handed out. */
  datatype IterState = IterState(cal: CalState, lastResult: Option<CalibrationResult>)

  predicate IsCalibrated(last: Option<CalibrationResult>)
  {
    last.Some? && last.value.status == Calibrated
  }

  /** `next`: the result of this step and whether the iterator is done. */
  function NextStep(it: IterState, frame: Frame): (IterState, CalibrationResult, bool)
  {
    if IsCalibrated(it.lastResult) then
      (it, it.lastResult.value, true)
    else
      var (s, r) := CalibrateStep(it.cal, frame);
      (IterState(s, Some(r)), r, false)
  }

  /** The state invariant: sizes within [MIN_SIZE, 90]; an edge pair's
      "last seen" flag can only be set in the stage that watches it; both
      flags of the current expansion stage set means the dimension has grown
      at least once since it was MIN_SIZE. */
  ghost predicate Inv(s: CalState)
  {
    && MinSize <= s.width <= MaxSide
    && MinSize <= s.height <= MaxSide
    && 0 <= s.stageIterationCount
    && 0 <= s.consecutiveSuccesses <= RequiredConsecutiveSuccesses
    && (s.stage != Done ==> s.consecutiveSuccesses < RequiredConsecutiveSuccesses)
    && (s.stage == Init ==> !s.leftPairLastSeen && !s.rightPairLastSeen)
    && (s.stage == Init || s.stage == Vertical || s.stage == VerticalFineTune ==> !s.topPairLastSeen && !s.bottomPairLastSeen)
    && (s.stage == Vertical && s.leftPairLastSeen && s.rightPairLastSeen ==> s.width >= MinSize + ExpansionStep)
    && (s.stage == Horizontal && s.topPairLastSeen && s.bottomPairLastSeen ==> s.height >= MinSize + ExpansionStep)
  }

  ghost predicate IterInv(it: IterState)
  {
    Inv(it.cal) && (it.cal.stage == Done <==> IsCalibrated(it.lastResult))
  }

  // ---------------------------------------------------------------------
  // The iterator object
  // ---------------------------------------------------------------------

  class CalibrationIterator {
    var stage: Stage
    var lastResult: Option<CalibrationResult>
    var stageIterationCount: int
    var consecutiveSuccesses: int
    var centerX: int
    var centerY: int
    var width: int
    var height: int
    var leftPairLastSeen: bool
    var rightPairLastSeen: bool
    var topPairLastSeen: bool
    var bottomPairLastSeen: bool

    function State(): CalState
      reads this
    {
      CalState(stage, stageIterationCount, consecutiveSuccesses, centerX, centerY, width, height,
               leftPairLastSeen, rightPairLastSeen, topPairLastSeen, bottomPairLastSeen)
    }

    function Iter(): IterState
      reads this
    {
      IterState(State(), lastResult)
    }

    ghost predicate Valid()
      reads this
    {
      IterInv(Iter())
    }

    constructor ()
      ensures Valid()
      ensures State() == Initial() && lastResult == None
    {
      stage := Init;
      lastResult := None;
      stageIterationCount := 0;
      consecutiveSuccesses := 0;
      centerX, centerY := 50, 50;
      width, height := 50, 50;
      leftPairLastSeen, rightPairLastSeen := false, false;
      topPairLastSeen, bottomPairLastSeen := false, false;
    }

    method Next(frame: Frame) returns (r: CalibrationResult, done: bool)
      requires Valid()
      modifies this
      ensures Valid()
      ensures (Iter(), r, done) == NextStep(old(Iter()), frame)
    {
      if lastResult.Some? && lastResult.value.status == Calibrated {
        r, done := lastResult.value, true;
        return;
      }
      r := Calibrate(frame);
      lastResult := Some(r);
      done := false;
      NextPreservesIterInv(old(Iter()), frame);
    }

    method Calibrate(frame: Frame) returns (r: CalibrationResult)
      modifies this
      ensures (State(), r) == CalibrateStep(old(State()), frame)
      ensures lastResult == old(lastResult)
    {
      stageIterationCount := stageIterationCount + 1;
      if stageIterationCount > MaxStageIterations {
        r := Report(Failed, State());
        return;
      }
      if stage == Init {
        stage := Vertical;
        stageIterationCount := 0;
        consecutiveSuccesses := 0;
        r := Report(Calibrating, State());
        return;
      }
      match frame {
        case CollaboratorError =>
          r := Report(Failed, State());
        case Detected(markers) =>
          ghost var counted := State();
          r := ProcessMarkers(markers);
          assert CalibrateStep(old(State()), frame) == StageStep(counted, markers);
      }
    }

    /** The stage switch of `calibrate` on detected markers. */
    method ProcessMarkers(markers: MarkerSet) returns (r: CalibrationResult)
      modifies this
      ensures (State(), r) == StageStep(old(State()), markers)
      ensures lastResult == old(lastResult)
    {
      match stage {
        case Vertical =>
          var complete := ProcessVerticalExpansion(markers);
          if complete {
            stage := VerticalFineTune;
            stageIterationCount := 0;
            consecutiveSuccesses := 0;
          }
        case VerticalFineTune =>
          var complete := ProcessFineTuning(markers);
          if complete {
            stage := Horizontal;
            stageIterationCount := 0;
            consecutiveSuccesses := 0;
          }
        case Horizontal =>
          var complete := ProcessHorizontalExpansion(markers);
          if complete {
            stage := HorizontalFineTune;
            stageIterationCount := 0;
            consecutiveSuccesses := 0;
          }
        case HorizontalFineTune =>
          var complete := ProcessFineTuning(markers);
          if complete {
            r := Report(Calibrated, State());
            stage := Done;
            return;
          }
        case _ =>
      }
      r := Report(Calibrating, State());
    }

    method ProcessVerticalExpansion(markers: MarkerSet) returns (complete: bool)
      modifies this
      ensures (State(), complete) == VerticalExpansion(old(State()), markers)
      ensures stage == old(stage) && lastResult == old(lastResult)
    {
      var leftVisible := IsPairVisible(markers, LeftPair);
      var rightVisible := IsPairVisible(markers, RightPair);
      var leftLost := !leftVisible && leftPairLastSeen;
      var rightLost := !rightVisible && rightPairLastSeen;
      leftPairLastSeen := leftVisible;
      rightPairLastSeen := rightVisible;
      if leftLost || rightLost {
        var newWidth := MaxInt(MinSize, width - ExpansionStep);
        if leftLost && !rightLost {
          centerX := centerX + ExpansionStep;
          width := newWidth;
        } else if rightLost && !leftLost {
          centerX := centerX - ExpansionStep;
          width := newWidth;
        } else {
          width := width - Buffer;
          return true;
        }
        return false;
      }
      if leftVisible && rightVisible {
        var oldWidth := width;
        width := MinInt(MaxSide, width + ExpansionStep);
        if oldWidth == width {
          width := width - Buffer;
          return true;
        }
        if width >= PullbackThreshold {
          width := width - Buffer;
          return true;
        }
      }
      return false;
    }

    method ProcessHorizontalExpansion(markers: MarkerSet) returns (complete: bool)
      modifies this
      ensures (State(), complete) == HorizontalExpansion(old(State()), markers)
      ensures stage == old(stage) && lastResult == old(lastResult)
    {
      var topVisible := IsPairVisible(markers, TopPair);
      var bottomVisible := IsPairVisible(markers, BottomPair);
      var topLost := !topVisible && topPairLastSeen;
      var bottomLost := !bottomVisible && bottomPairLastSeen;
      topPairLastSeen := topVisible;
      bottomPairLastSeen := bottomVisible;
      if topLost || bottomLost {
        var newHeight := MaxInt(MinSize, height - ExpansionStep);
        if topLost && !bottomLost {
          centerY := centerY + ExpansionStep;
          height := newHeight;
        } else if bottomLost && !topLost {
          centerY := centerY - ExpansionStep;
          height := newHeight;
        } else {
          height := height - Buffer;
          return true;
        }
        return false;
      }
      if topVisible && bottomVisible {
        height := MinInt(MaxSide, height + ExpansionStep);
        if height >= PullbackThreshold {
          height := height - Buffer;
          return true;
        }
      }
      return false;
    }

    method ProcessFineTuning(markers: MarkerSet) returns (complete: bool)
      modifies this
      ensures (State(), complete) == FineTuning(old(State()), markers)
      ensures stage == old(stage) && lastResult == old(lastResult)
    {
      if !AllCornersFound(markers) {
        consecutiveSuccesses := 0;
        if stage == VerticalFineTune {
          width := MaxInt(MinSize, width - Buffer);
        } else if stage == HorizontalFineTune {
          height := MaxInt(MinSize, height - Buffer);
        }
        return false;
      }
      consecutiveSuccesses := consecutiveSuccesses + 1;
      if consecutiveSuccesses >= RequiredConsecutiveSuccesses {
        if stage == HorizontalFineTune {
          width := MaxInt(MinSize, width - FinalBuffer);
          height := MaxInt(MinSize, height - FinalBuffer);
        }
        return true;
      }
      return false;
    }
  }

  // ---------------------------------------------------------------------
  // Properties of one step
  // ---------------------------------------------------------------------

  lemma VerticalExpansionKeepsInv(s: CalState, m: MarkerSet)
    requires Inv(s) && s.stage == Vertical
    ensures var (t, complete) := VerticalExpansion(s, m);
      Inv(if complete then EnterStage(t, VerticalFineTune) else t)
  {
  }

  lemma HorizontalExpansionKeepsInv(s: CalState, m: MarkerSet)
    requires Inv(s) && s.stage == Horizontal
    ensures var (t, complete) := HorizontalExpansion(s, m);
      Inv(if complete then EnterStage(t, HorizontalFineTune) else t)
  {
  }

  lemma FineTuningKeepsInv(s: CalState, m: MarkerSet)
    requires Inv(s) && (s.stage == VerticalFineTune || s.stage == HorizontalFineTune)
    ensures var (t, complete) := FineTuning(s, m);
      && (s.stage == VerticalFineTune ==> Inv(if complete then EnterStage(t, Horizontal) else t))
      && (s.stage == HorizontalFineTune ==> Inv(if complete then t.(stage := Done) else t))
  {
  }

  lemma StageStepKeepsInv(s: CalState, m: MarkerSet)
    requires Inv(s)
    ensures Inv(StageStep(s, m).0)
  {
    match s.stage
    case Vertical => VerticalExpansionKeepsInv(s, m);
    case Horizontal => HorizontalExpansionKeepsInv(s, m);
    case VerticalFineTune => FineTuningKeepsInv(s, m);
    case HorizontalFineTune => FineTuningKeepsInv(s, m);
    case _ =>
  }

  lemma CalibrateStepPreservesInv(s: CalState, frame: Frame)
    requires Inv(s)
    ensures Inv(CalibrateStep(s, frame).0)
  {
    if s.stageIterationCount < MaxStageIterations && s.stage != Init && frame.Detected? {
      DetectedStep(s, frame.markers);
      StageStepKeepsInv(Counted(s), frame.markers);
    }
  }

  lemma NextPreservesIterInv(it: IterState, frame: Frame)
    requires IterInv(it)
    ensures IterInv(NextStep(it, frame).0)
  {
    if !IsCalibrated(it.lastResult) {
      CalibrateStepPreservesInv(it.cal, frame);
    }
  }

  /** The state once the step has been counted. */
  function Counted(s: CalState): CalState
  {
    s.(stageIterationCount := s.stageIterationCount + 1)
  }

  /** A detected frame within the stage's budget goes to the stage switch. */
  lemma DetectedStep(s: CalState, m: MarkerSet)
    requires s.stage != Init && s.stageIterationCount < MaxStageIterations
    ensures CalibrateStep(s, Detected(m)) == StageStep(Counted(s), m)
  {
  }

  /** The vertical expansion touches neither the height, the vertical
      centre, the top/bottom flags, the stage nor its counters. */
  lemma VerticalExpansionFrame(s: CalState, m: MarkerSet)
    ensures var t := VerticalExpansion(s, m).0;
      && t.height == s.height && t.centerY == s.centerY
      && t.topPairLastSeen == s.topPairLastSeen && t.bottomPairLastSeen == s.bottomPairLastSeen
      && t.stage == s.stage && t.stageIterationCount == s.stageIterationCount
      && t.consecutiveSuccesses == s.consecutiveSuccesses
    ensures !s.leftPairLastSeen && !s.rightPairLastSeen ==> VerticalExpansion(s, m).0.centerX == s.centerX
  {
  }

  lemma HorizontalExpansionFrame(s: CalState, m: MarkerSet)
    ensures var t := HorizontalExpansion(s, m).0;
      && t.width == s.width && t.centerX == s.centerX
      && t.leftPairLastSeen == s.leftPairLastSeen && t.rightPairLastSeen == s.rightPairLastSeen
      && t.stage == s.stage && t.stageIterationCount == s.stageIterationCount
      && t.consecutiveSuccesses == s.consecutiveSuccesses
    ensures !s.topPairLastSeen && !s.bottomPairLastSeen ==> HorizontalExpansion(s, m).0.centerY == s.centerY
  {
  }

  lemma FineTuningFrame(s: CalState, m: MarkerSet)
    ensures var (t, complete) := FineTuning(s, m);
      && t.centerX == s.centerX && t.centerY == s.centerY
      && t.leftPairLastSeen == s.leftPairLastSeen && t.rightPairLastSeen == s.rightPairLastSeen
      && t.topPairLastSeen == s.topPairLastSeen && t.bottomPairLastSeen == s.bottomPairLastSeen
      && t.stage == s.stage && t.stageIterationCount == s.stageIterationCount
      && (s.stage == VerticalFineTune ==> t.height == s.height)
      && (s.stage == HorizontalFineTune && !complete ==> t.width == s.width)
  {
  }

  /** What every step reports is the region of the state it leaves behind. */
  lemma ReportsNewRegion(s: CalState, frame: Frame)
    ensures CalibrateStep(s, frame).1.calibration == CartesianToCalibration(CalibrateStep(s, frame).0)
  {
  }

  /** The region reported at every step has width and height in
      [MIN_SIZE/100, 90/100]; every field is in [0, 1]. */
  lemma ReportedSizeBounds(s: CalState, frame: Frame)
    requires Inv(s)
    ensures var c := CalibrateStep(s, frame).1.calibration;
      && UnitRegion(c)
      && MinSize as real / 100.0 <= c.width <= MaxSide as real / 100.0
      && MinSize as real / 100.0 <= c.height <= MaxSide as real / 100.0
  {
    CalibrateStepPreservesInv(s, frame);
    ReportsNewRegion(s, frame);
  }

  /** The first step: no frame is looked at, the default centred region
      (0.25, 0.25, 0.5, 0.5) is reported and the vertical stage begins with
      fresh counters. */
  lemma FirstStep(frame: Frame)
    ensures CalibrateStep(Initial(), frame) ==
      (Initial().(stage := Vertical),
       CalibrationResult(Calibrating, Calibration(0.25, 0.25, 0.5, 0.5, None)))
    ensures NextStep(IterState(Initial(), None), frame).2 == false
  {
  }

  /** A step taken when the stage has already used up its fifty frames
      fails with the current region and changes nothing but the count. */
  lemma StageIterationCap(s: CalState, frame: Frame)
    requires s.stageIterationCount >= MaxStageIterations
    ensures CalibrateStep(s, frame) ==
      (s.(stageIterationCount := s.stageIterationCount + 1), Report(Failed, s))
  {
  }

  /** The per-stage count goes up by one on every step that stays in the
      stage, and is zero after every change of stage except the final one
      into `done`. */
  lemma StageCounter(s: CalState, frame: Frame)
    ensures var t := CalibrateStep(s, frame).0;
      && (t.stage == s.stage ==> t.stageIterationCount == s.stageIterationCount + 1)
      && (t.stage != s.stage && t.stage != Done ==> t.stageIterationCount == 0)
  {
  }

  /** A camera or detector error in any stage after `init` fails the step
      with the current region and changes nothing but the count. */
  lemma CollaboratorErrorFails(s: CalState)
    requires s.stage != Init && s.stageIterationCount < MaxStageIterations
    ensures CalibrateStep(s, CollaboratorError) ==
      (s.(stageIterationCount := s.stageIterationCount + 1), Report(Failed, s))
  {
  }

  /** Edge loss in the vertical stage: a pair is lost when it is invisible
      now and was visible on the previous step; one lost side moves the
      centre away from it and narrows the rectangle (not below MIN_SIZE);
      both lost narrows it by the buffer and ends the stage. */
  lemma VerticalLossRules(s: CalState, m: MarkerSet)
    requires s.stage == Vertical && 0 <= s.stageIterationCount < MaxStageIterations
    ensures var t := CalibrateStep(s, Detected(m)).0;
      var leftLost := !IsPairVisible(m, LeftPair) && s.leftPairLastSeen;
      var rightLost := !IsPairVisible(m, RightPair) && s.rightPairLastSeen;
      && (leftLost && !rightLost ==>
            t.stage == Vertical && t.centerX == s.centerX + ExpansionStep && t.width == MaxInt(MinSize, s.width - ExpansionStep))
      && (rightLost && !leftLost ==>
            t.stage == Vertical && t.centerX == s.centerX - ExpansionStep && t.width == MaxInt(MinSize, s.width - ExpansionStep))
      && (leftLost && rightLost ==>
            t.stage == VerticalFineTune && t.centerX == s.centerX && t.width == s.width - Buffer)
      && (!leftLost && !rightLost ==> t.centerX == s.centerX)
  {
  }

  /** The same rules for the horizontal stage, on the vertical centre and
      the height. */
  lemma HorizontalLossRules(s: CalState, m: MarkerSet)
    requires s.stage == Horizontal && 0 <= s.stageIterationCount < MaxStageIterations
    ensures var t := CalibrateStep(s, Detected(m)).0;
      var topLost := !IsPairVisible(m, TopPair) && s.topPairLastSeen;
      var bottomLost := !IsPairVisible(m, BottomPair) && s.bottomPairLastSeen;
      && (topLost && !bottomLost ==>
            t.stage == Horizontal && t.centerY == s.centerY + ExpansionStep && t.height == MaxInt(MinSize, s.height - ExpansionStep))
      && (bottomLost && !topLost ==>
            t.stage == Horizontal && t.centerY == s.centerY - ExpansionStep && t.height == MaxInt(MinSize, s.height - ExpansionStep))
      && (topLost && bottomLost ==>
            t.stage == HorizontalFineTune && t.centerY == s.centerY && t.height == s.height - Buffer)
      && (!topLost && !bottomLost ==> t.centerY == s.centerY)
  {
  }

  /** A pair that was not visible on the previous step cannot be lost, so
      it never moves the centre: only a visible-to-invisible change does. */
  lemma UnseenPairNeverMovesCentre(s: CalState, m: MarkerSet)
    requires 0 <= s.stageIterationCount < MaxStageIterations
    requires s.stage == Vertical ==> !s.leftPairLastSeen && !s.rightPairLastSeen
    requires s.stage == Horizontal ==> !s.topPairLastSeen && !s.bottomPairLastSeen
    ensures var t := CalibrateStep(s, Detected(m)).0;
      t.centerX == s.centerX && t.centerY == s.centerY
  {
    if s.stage != Init {
      DetectedStep(s, m);
      var c := Counted(s);
      match s.stage
      case Vertical => VerticalExpansionFrame(c, m);
      case Horizontal => HorizontalExpansionFrame(c, m);
      case VerticalFineTune => FineTuningFrame(c, m);
      case HorizontalFineTune => FineTuningFrame(c, m);
      case Done =>
    }
  }

  /** Growth: with both watched pairs visible the dimension grows by 5,
      capped at 90; a result of 85 or more is pulled back by the buffer and
      ends the stage. (In the vertical stage the extra "width did not
      change" test only fires at width 90, where the threshold test would
      give the same result.) */
  lemma ExpansionGrowth(s: CalState, m: MarkerSet)
    requires s.stage == Vertical || s.stage == Horizontal
    requires 0 <= s.stageIterationCount < MaxStageIterations
    requires s.stage == Vertical ==> IsPairVisible(m, LeftPair) && IsPairVisible(m, RightPair)
    requires s.stage == Horizontal ==> IsPairVisible(m, TopPair) && IsPairVisible(m, BottomPair)
    ensures var t := CalibrateStep(s, Detected(m)).0;
      var d := if s.stage == Vertical then s.width else s.height;
      var d' := if s.stage == Vertical then t.width else t.height;
      var grown := MinInt(MaxSide, d + ExpansionStep);
      && (grown >= PullbackThreshold ==>
            d' == grown - Buffer && t.stage == (if s.stage == Vertical then VerticalFineTune else HorizontalFineTune))
      && (grown < PullbackThreshold ==> d' == d + ExpansionStep && t.stage == s.stage)
  {
  }

  /** The vertical stage changes only the width, the horizontal centre and
      the left/right flags; the horizontal stage only the height, the
      vertical centre and the top/bottom flags. */
  lemma ExpansionStageFrames(s: CalState, frame: Frame)
    ensures var t := CalibrateStep(s, frame).0;
      && (s.stage == Vertical ==>
            t.height == s.height && t.centerY == s.centerY
            && t.topPairLastSeen == s.topPairLastSeen && t.bottomPairLastSeen == s.bottomPairLastSeen)
      && (s.stage == Horizontal ==>
            t.width == s.width && t.centerX == s.centerX
            && t.leftPairLastSeen == s.leftPairLastSeen && t.rightPairLastSeen == s.rightPairLastSeen)
  {
    if s.stageIterationCount < MaxStageIterations && frame.Detected? {
      if s.stage == Vertical {
        DetectedStep(s, frame.markers);
        VerticalExpansionFrame(Counted(s), frame.markers);
      } else if s.stage == Horizontal {
        DetectedStep(s, frame.markers);
        HorizontalExpansionFrame(Counted(s), frame.markers);
      }
    }
  }

  /** The fine-tuning stages move no centre and no flag; the vertical one
      changes only the width, the horizontal one only the height until it
      completes, when it also pulls the width in. */
  lemma FineTuneStageFrames(s: CalState, frame: Frame)
    requires s.stage == VerticalFineTune || s.stage == HorizontalFineTune
    ensures var t := CalibrateStep(s, frame).0;
      && t.centerX == s.centerX && t.centerY == s.centerY
      && t.leftPairLastSeen == s.leftPairLastSeen && t.rightPairLastSeen == s.rightPairLastSeen
      && t.topPairLastSeen == s.topPairLastSeen && t.bottomPairLastSeen == s.bottomPairLastSeen
      && (s.stage == VerticalFineTune ==> t.height == s.height)
      && (s.stage == HorizontalFineTune && t.stage != Done ==> t.width == s.width)
  {
    if s.stageIterationCount < MaxStageIterations && frame.Detected? {
      DetectedStep(s, frame.markers);
      FineTuningFrame(Counted(s), frame.markers);
    }
  }

  /** Fine tuning: a frame missing any marker (absent or null) resets the
      streak and shrinks the stage's dimension to max(MIN_SIZE, d - 5); a
      frame with all four extends the streak, and the tenth in a row ends
      the stage, the last one reporting CALIBRATED with both dimensions
      pulled in by the final buffer. */
  lemma FineTuneRules(s: CalState, m: MarkerSet)
    requires s.stage == VerticalFineTune || s.stage == HorizontalFineTune
    requires 0 <= s.stageIterationCount < MaxStageIterations
    ensures var (t, r) := CalibrateStep(s, Detected(m));
      && (!AllCornersFound(m) ==>
            && t.stage == s.stage && t.consecutiveSuccesses == 0 && r.status == Calibrating
            && (s.stage == VerticalFineTune ==> t.width == MaxInt(MinSize, s.width - Buffer))
            && (s.stage == HorizontalFineTune ==> t.height == MaxInt(MinSize, s.height - Buffer)))
      && (AllCornersFound(m) && s.consecutiveSuccesses + 1 < RequiredConsecutiveSuccesses ==>
            t == s.(stageIterationCount := s.stageIterationCount + 1,
                    consecutiveSuccesses := s.consecutiveSuccesses + 1)
            && r.status == Calibrating)
      && (AllCornersFound(m) && s.consecutiveSuccesses + 1 >= RequiredConsecutiveSuccesses && s.stage == VerticalFineTune ==>
            t == EnterStage(s, Horizontal) && r.status == Calibrating)
      && (AllCornersFound(m) && s.consecutiveSuccesses + 1 >= RequiredConsecutiveSuccesses && s.stage == HorizontalFineTune ==>
            && t.stage == Done && r.status == Calibrated
            && t.width == MaxInt(MinSize, s.width - FinalBuffer)
            && t.height == MaxInt(MinSize, s.height - FinalBuffer))
  {
  }

  // ---------------------------------------------------------------------
  // Properties of the iterator protocol
  // ---------------------------------------------------------------------

  /** `next` reports done exactly when the previous result was CALIBRATED,
      and then hands that result back without taking a step. */
  lemma NextDoneIffCalibrated(it: IterState, frame: Frame)
    ensures NextStep(it, frame).2 <==> IsCalibrated(it.lastResult)
    ensures IsCalibrated(it.lastResult) ==> NextStep(it, frame) == (it, it.lastResult.value, true)
  {
  }

  /** A FAILED result does not end the iterator: the next call takes
      another step (the caller in src/main.ts stops on it instead). */
  lemma FailedDoesNotEndIteration(it: IterState, frame: Frame)
    requires it.lastResult.Some? && it.lastResult.value.status == Failed
    ensures NextStep(it, frame).2 == false
    ensures NextStep(it, frame).0.cal == CalibrateStep(it.cal, frame).0
  {
  }

  /** `next` applied to a sequence of frames: the outputs in order. */
  function NextRun(it: IterState, frames: seq<Frame>): (r: (IterState, seq<(CalibrationResult, bool)>))
    ensures |r.1| == |frames|
    decreases |frames|
  {
    if frames == [] then (it, [])
    else
      var step := NextStep(it, frames[0]);
      var rest := NextRun(step.0, frames[1..]);
      (rest.0, [(step.1, step.2)] + rest.1)
  }

  /** Once CALIBRATED has been returned, every later call reports done with
      that same result and changes nothing. */
  lemma {:induction false} CalibratedIsFinal(it: IterState, frames: seq<Frame>)
    requires IsCalibrated(it.lastResult)
    ensures NextRun(it, frames).0 == it
    ensures forall k :: 0 <= k < |frames| ==> NextRun(it, frames).1[k] == (it.lastResult.value, true)
  {
    if frames != [] {
      CalibratedIsFinal(it, frames[1..]);
    }
  }

  /** A step that yields CALIBRATED leaves the iterator in `done`, so the
      following calls are all final. */
  lemma CalibratedStepEndsIteration(it: IterState, frame: Frame)
    requires IterInv(it)
    requires NextStep(it, frame).1.status == Calibrated
    ensures IsCalibrated(NextStep(it, frame).0.lastResult)
    ensures NextStep(it, frame).0.cal.stage == Done
  {
  }

  // ---------------------------------------------------------------------
  // Runs of several steps
  // ---------------------------------------------------------------------

  /** `calibrate` applied to a sequence of frames: the final state and the
      results in order. */
  function Run(s: CalState, frames: seq<Frame>): (r: (CalState, seq<CalibrationResult>))
    ensures |r.1| == |frames|
    decreases |frames|
  {
    if frames == [] then (s, [])
    else
      var step := CalibrateStep(s, frames[0]);
      var rest := Run(step.0, frames[1..]);
      (rest.0, [step.1] + rest.1)
  }

  /** A run is its first step followed by the run of the remaining frames. */
  lemma RunCons(s: CalState, frames: seq<Frame>)
    requires frames != []
    ensures Run(s, frames).0 == Run(CalibrateStep(s, frames[0]).0, frames[1..]).0
    ensures Run(s, frames).1 == [CalibrateStep(s, frames[0]).1] + Run(CalibrateStep(s, frames[0]).0, frames[1..]).1
  {
  }

  lemma RunSingle(s: CalState, f: Frame)
    ensures Run(s, [f]) == (CalibrateStep(s, f).0, [CalibrateStep(s, f).1])
  {
    assert [f][1..] == [];
    assert [CalibrateStep(s, f).1] + [] == [CalibrateStep(s, f).1];
  }

  lemma {:induction false} RunAppend(s: CalState, a: seq<Frame>, b: seq<Frame>)
    ensures Run(s, a + b).0 == Run(Run(s, a).0, b).0
    ensures Run(s, a + b).1 == Run(s, a).1 + Run(Run(s, a).0, b).1
    decreases |a|
  {
    if a == [] {
      assert a + b == b;
    } else {
      assert (a + b)[0] == a[0];
      assert (a + b)[1..] == a[1..] + b;
      RunAppend(CalibrateStep(s, a[0]).0, a[1..], b);
    }
  }

  /** The expansion stage that watches pair p. */
  predicate WatchedBy(stage: Stage, p: Pair)
  {
    (stage == Vertical && (p == LeftPair || p == RightPair))
    || (stage == Horizontal && (p == TopPair || p == BottomPair))
  }

  lemma AbsentPairStep(s: CalState, m: MarkerSet, p: Pair)
    requires WatchedBy(s.stage, p) && !LastSeen(s, p) && !IsPairVisible(m, p)
    requires 0 <= s.stageIterationCount < MaxStageIterations
    ensures var (t, r) := CalibrateStep(s, Detected(m));
      && t.stage == s.stage && !LastSeen(t, p) && r.status == Calibrating
      && t.stageIterationCount == s.stageIterationCount + 1
  {
  }

  /** An edge pair that is never seen keeps its expansion stage from ending:
      the stage reports CALIBRATING until its fifty frames are used up and
      then FAILED, on the 51st step counted from a fresh stage. */
  lemma {:induction false} AbsentPairFailsStage(s: CalState, frames: seq<Frame>, p: Pair)
    requires WatchedBy(s.stage, p) && !LastSeen(s, p)
    requires 0 <= s.stageIterationCount <= MaxStageIterations
    requires |frames| == MaxStageIterations + 1 - s.stageIterationCount
    requires forall i :: 0 <= i < |frames| ==> frames[i].Detected? && !IsPairVisible(frames[i].markers, p)
    ensures Run(s, frames).1[|frames| - 1].status == Failed
    ensures forall i :: 0 <= i < |frames| - 1 ==> Run(s, frames).1[i].status == Calibrating
    decreases |frames|
  {
    if s.stageIterationCount == MaxStageIterations {
      StageIterationCap(s, frames[0]);
    } else {
      AbsentPairStep(s, frames[0].markers, p);
      var t := CalibrateStep(s, frames[0]).0;
      AbsentPairFailsStage(t, frames[1..], p);
    }
  }

  lemma MissingMarkerStep(s: CalState, m: MarkerSet)
    requires s.stage == VerticalFineTune || s.stage == HorizontalFineTune
    requires !AllCornersFound(m)
    requires 0 <= s.stageIterationCount < MaxStageIterations
    ensures var (t, r) := CalibrateStep(s, Detected(m));
      && t.stage == s.stage && r.status == Calibrating
      && t.stageIterationCount == s.stageIterationCount + 1
  {
  }

  /** A marker missing from every frame keeps a fine-tuning stage from
      ending, so it fails once its fifty frames are used up. */
  lemma {:induction false} MissingMarkerFailsFineTune(s: CalState, frames: seq<Frame>)
    requires s.stage == VerticalFineTune || s.stage == HorizontalFineTune
    requires 0 <= s.stageIterationCount <= MaxStageIterations
    requires |frames| == MaxStageIterations + 1 - s.stageIterationCount
    requires forall i :: 0 <= i < |frames| ==> frames[i].Detected? && !AllCornersFound(frames[i].markers)
    ensures Run(s, frames).1[|frames| - 1].status == Failed
    ensures forall i :: 0 <= i < |frames| - 1 ==> Run(s, frames).1[i].status == Calibrating
    decreases |frames|
  {
    if s.stageIterationCount == MaxStageIterations {
      StageIterationCap(s, frames[0]);
    } else {
      MissingMarkerStep(s, frames[0].markers);
      MissingMarkerFailsFineTune(CalibrateStep(s, frames[0]).0, frames[1..]);
    }
  }

  /** A frame in which all four markers carry a position. */
  predicate AllVisible(f: Frame)
  {
    f.Detected? && AllCornersFound(f.markers)
  }

  /** Ten consecutive frames with every marker found complete a fine-tuning
      stage from a fresh streak; the horizontal one reports CALIBRATED. */
  lemma FineTuneCompletes(s: CalState, frames: seq<Frame>)
    requires s.stage == VerticalFineTune || s.stage == HorizontalFineTune
    requires 0 <= s.consecutiveSuccesses < RequiredConsecutiveSuccesses
    requires 0 <= s.stageIterationCount
    requires s.stageIterationCount + RequiredConsecutiveSuccesses - s.consecutiveSuccesses <= MaxStageIterations
    requires |frames| == RequiredConsecutiveSuccesses - s.consecutiveSuccesses
    requires forall i :: 0 <= i < |frames| ==> AllVisible(frames[i])
    ensures var (t, rs) := Run(s, frames);
      && (s.stage == VerticalFineTune ==>
            t == EnterStage(s, Horizontal) && rs[|frames| - 1].status == Calibrating)
      && (s.stage == HorizontalFineTune ==>
            && t.stage == Done && rs[|frames| - 1].status == Calibrated
            && t.width == MaxInt(MinSize, s.width - FinalBuffer)
            && t.height == MaxInt(MinSize, s.height - FinalBuffer)
            && t.centerX == s.centerX && t.centerY == s.centerY)
    ensures forall i :: 0 <= i < |frames| - 1 ==> Run(s, frames).1[i].status == Calibrating
  {
    if s.stage == VerticalFineTune {
      VerticalFineTuneCompletes(s, frames);
    } else {
      HorizontalFineTuneCompletes(s, frames);
    }
  }

  /** One frame with all four markers in a fine-tuning stage, exactly. */
  lemma FineTuneSuccessStep(s: CalState, m: MarkerSet)
    requires s.stage == VerticalFineTune || s.stage == HorizontalFineTune
    requires 0 <= s.stageIterationCount < MaxStageIterations
    requires AllCornersFound(m)
    ensures var (t, r) := CalibrateStep(s, Detected(m));
      var streak := s.(stageIterationCount := s.stageIterationCount + 1,
                       consecutiveSuccesses := s.consecutiveSuccesses + 1);
      && (s.consecutiveSuccesses + 1 < RequiredConsecutiveSuccesses ==>
            t == streak && r.status == Calibrating)
      && (s.consecutiveSuccesses + 1 >= RequiredConsecutiveSuccesses && s.stage == VerticalFineTune ==>
            t == EnterStage(s, Horizontal) && r.status == Calibrating)
      && (s.consecutiveSuccesses + 1 >= RequiredConsecutiveSuccesses && s.stage == HorizontalFineTune ==>
            t == streak.(stage := Done,
                         width := MaxInt(MinSize, s.width - FinalBuffer),
                         height := MaxInt(MinSize, s.height - FinalBuffer))
            && r.status == Calibrated)
  {
    DetectedStep(s, m);
    var c := Counted(s);
    var streak := c.(consecutiveSuccesses := s.consecutiveSuccesses + 1);
    if s.consecutiveSuccesses + 1 < RequiredConsecutiveSuccesses {
      assert FineTuning(c, m) == (streak, false);
    } else {
      assert FineTuning(c, m).1;
    }
  }

  lemma {:induction false} VerticalFineTuneCompletes(s: CalState, frames: seq<Frame>)
    requires s.stage == VerticalFineTune
    requires 0 <= s.consecutiveSuccesses < RequiredConsecutiveSuccesses
    requires 0 <= s.stageIterationCount
    requires s.stageIterationCount + RequiredConsecutiveSuccesses - s.consecutiveSuccesses <= MaxStageIterations
    requires |frames| == RequiredConsecutiveSuccesses - s.consecutiveSuccesses
    requires forall i :: 0 <= i < |frames| ==> AllVisible(frames[i])
    ensures Run(s, frames).0 == EnterStage(s, Horizontal)
    ensures forall i :: 0 <= i < |frames| ==> Run(s, frames).1[i].status == Calibrating
    decreases |frames|
  {
    var m := frames[0].markers;
    assert frames[0] == Detected(m);
    FineTuneSuccessStep(s, m);
    if s.consecutiveSuccesses + 1 < RequiredConsecutiveSuccesses {
      var t := CalibrateStep(s, frames[0]).0;
      assert forall i :: 0 <= i < |frames| - 1 ==> frames[1..][i] == frames[i + 1];
      RunCons(s, frames);
      VerticalFineTuneCompletes(t, frames[1..]);
    } else {
      assert frames == [frames[0]];
      RunSingle(s, frames[0]);
    }
  }

  lemma {:induction false} HorizontalFineTuneCompletes(s: CalState, frames: seq<Frame>)
    requires s.stage == HorizontalFineTune
    requires 0 <= s.consecutiveSuccesses < RequiredConsecutiveSuccesses
    requires 0 <= s.stageIterationCount
    requires s.stageIterationCount + RequiredConsecutiveSuccesses - s.consecutiveSuccesses <= MaxStageIterations
    requires |frames| == RequiredConsecutiveSuccesses - s.consecutiveSuccesses
    requires forall i :: 0 <= i < |frames| ==> AllVisible(frames[i])
    ensures var t := Run(s, frames).0;
      && t.stage == Done
      && t.width == MaxInt(MinSize, s.width - FinalBuffer)
      && t.height == MaxInt(MinSize, s.height - FinalBuffer)
      && t.centerX == s.centerX && t.centerY == s.centerY
    ensures Run(s, frames).1[|frames| - 1].status == Calibrated
    ensures forall i :: 0 <= i < |frames| - 1 ==> Run(s, frames).1[i].status == Calibrating
    decreases |frames|
  {
    var m := frames[0].markers;
    assert frames[0] == Detected(m);
    FineTuneSuccessStep(s, m);
    if s.consecutiveSuccesses + 1 < RequiredConsecutiveSuccesses {
      var t := CalibrateStep(s, frames[0]).0;
      assert forall i :: 0 <= i < |frames| - 1 ==> frames[1..][i] == frames[i + 1];
      RunCons(s, frames);
      HorizontalFineTuneCompletes(t, frames[1..]);
    } else {
      assert frames == [frames[0]];
      RunSingle(s, frames[0]);
    }
  }

  /** Number of all-visible frames an expansion stage needs to reach the
      pull-back threshold from dimension d. */
  function GrowthSteps(d: int): (n: nat)
    ensures n >= 1
    decreases PullbackThreshold - d
  {
    if MinInt(MaxSide, d + ExpansionStep) >= PullbackThreshold then 1
    else 1 + GrowthSteps(d + ExpansionStep)
  }

  /** With both watched pairs visible on every frame an expansion stage
      ends after GrowthSteps frames, the dimension pulled back to between
      80 and 85, and the other dimension untouched. */
  lemma ExpansionCompletes(s: CalState, frames: seq<Frame>)
    requires s.stage == Vertical || s.stage == Horizontal
    requires 0 <= s.stageIterationCount
    requires s.stageIterationCount + GrowthSteps(if s.stage == Vertical then s.width else s.height) <= MaxStageIterations
    requires |frames| == GrowthSteps(if s.stage == Vertical then s.width else s.height)
    requires forall i :: 0 <= i < |frames| ==> AllVisible(frames[i])
    ensures var (t, rs) := Run(s, frames);
      && t.stageIterationCount == 0 && t.consecutiveSuccesses == 0
      && (s.stage == Vertical ==>
            && t.stage == VerticalFineTune && t.height == s.height
            && PullbackThreshold - Buffer <= t.width <= MaxSide - Buffer
            && t.topPairLastSeen == s.topPairLastSeen && t.bottomPairLastSeen == s.bottomPairLastSeen)
      && (s.stage == Horizontal ==>
            && t.stage == HorizontalFineTune && t.width == s.width
            && PullbackThreshold - Buffer <= t.height <= MaxSide - Buffer)
    ensures forall i :: 0 <= i < |frames| ==> Run(s, frames).1[i].status == Calibrating
  {
    if s.stage == Vertical {
      VerticalExpansionCompletes(s, frames);
    } else {
      HorizontalExpansionCompletes(s, frames);
    }
  }

  lemma {:induction false} VerticalExpansionCompletes(s: CalState, frames: seq<Frame>)
    requires s.stage == Vertical && 0 <= s.stageIterationCount
    requires s.stageIterationCount + GrowthSteps(s.width) <= MaxStageIterations
    requires |frames| == GrowthSteps(s.width)
    requires forall i :: 0 <= i < |frames| ==> AllVisible(frames[i])
    ensures var t := Run(s, frames).0;
      && t.stageIterationCount == 0 && t.consecutiveSuccesses == 0
      && t.stage == VerticalFineTune && t.height == s.height
      && PullbackThreshold - Buffer <= t.width <= MaxSide - Buffer
      && t.topPairLastSeen == s.topPairLastSeen && t.bottomPairLastSeen == s.bottomPairLastSeen
    ensures forall i :: 0 <= i < |frames| ==> Run(s, frames).1[i].status == Calibrating
    decreases |frames|
  {
    var m := frames[0].markers;
    assert frames[0] == Detected(m);
    VerticalGrowStep(s, m);
    var t := CalibrateStep(s, frames[0]).0;
    if MinInt(MaxSide, s.width + ExpansionStep) < PullbackThreshold {
      assert GrowthSteps(s.width) == 1 + GrowthSteps(t.width);
      assert forall i :: 0 <= i < |frames| - 1 ==> frames[1..][i] == frames[i + 1];
      RunCons(s, frames);
      VerticalExpansionCompletes(t, frames[1..]);
    } else {
      assert frames == [frames[0]];
      RunSingle(s, frames[0]);
    }
  }

  lemma {:induction false} HorizontalExpansionCompletes(s: CalState, frames: seq<Frame>)
    requires s.stage == Horizontal && 0 <= s.stageIterationCount
    requires s.stageIterationCount + GrowthSteps(s.height) <= MaxStageIterations
    requires |frames| == GrowthSteps(s.height)
    requires forall i :: 0 <= i < |frames| ==> AllVisible(frames[i])
    ensures var t := Run(s, frames).0;
      && t.stageIterationCount == 0 && t.consecutiveSuccesses == 0
      && t.stage == HorizontalFineTune && t.width == s.width
      && PullbackThreshold - Buffer <= t.height <= MaxSide - Buffer
    ensures forall i :: 0 <= i < |frames| ==> Run(s, frames).1[i].status == Calibrating
    decreases |frames|
  {
    var m := frames[0].markers;
    assert frames[0] == Detected(m);
    HorizontalGrowStep(s, m);
    var t := CalibrateStep(s, frames[0]).0;
    if MinInt(MaxSide, s.height + ExpansionStep) < PullbackThreshold {
      assert GrowthSteps(s.height) == 1 + GrowthSteps(t.height);
      assert forall i :: 0 <= i < |frames| - 1 ==> frames[1..][i] == frames[i + 1];
      RunCons(s, frames);
      HorizontalExpansionCompletes(t, frames[1..]);
    } else {
      assert frames == [frames[0]];
      RunSingle(s, frames[0]);
    }
  }

  /** One all-visible frame of the vertical stage, exactly. */
  lemma VerticalGrowStep(s: CalState, m: MarkerSet)
    requires s.stage == Vertical && 0 <= s.stageIterationCount < MaxStageIterations
    requires IsPairVisible(m, LeftPair) && IsPairVisible(m, RightPair)
    ensures var grown := MinInt(MaxSide, s.width + ExpansionStep);
      var seen := s.(leftPairLastSeen := true, rightPairLastSeen := true);
      CalibrateStep(s, Detected(m)).0 ==
        (if grown >= PullbackThreshold then EnterStage(seen.(width := grown - Buffer), VerticalFineTune)
         else seen.(stageIterationCount := s.stageIterationCount + 1, width := grown))
    ensures CalibrateStep(s, Detected(m)).1.status == Calibrating
  {
    DetectedStep(s, m);
  }

  /** One all-visible frame of the horizontal stage, exactly. */
  lemma HorizontalGrowStep(s: CalState, m: MarkerSet)
    requires s.stage == Horizontal && 0 <= s.stageIterationCount < MaxStageIterations
    requires IsPairVisible(m, TopPair) && IsPairVisible(m, BottomPair)
    ensures var grown := MinInt(MaxSide, s.height + ExpansionStep);
      var seen := s.(topPairLastSeen := true, bottomPairLastSeen := true);
      CalibrateStep(s, Detected(m)).0 ==
        (if grown >= PullbackThreshold then EnterStage(seen.(height := grown - Buffer), HorizontalFineTune)
         else seen.(stageIterationCount := s.stageIterationCount + 1, height := grown))
    ensures CalibrateStep(s, Detected(m)).1.status == Calibrating
  {
    DetectedStep(s, m);
  }

  /** From the initial 50, seven growth steps reach the pull-back threshold
      (55, 60, ..., 85). */
  lemma GrowthFromFifty()
    ensures GrowthSteps(50) == 7
  {
    assert GrowthSteps(80) == 1;
    assert GrowthSteps(75) == 2;
    assert GrowthSteps(70) == 3;
    assert GrowthSteps(65) == 4;
    assert GrowthSteps(60) == 5;
    assert GrowthSteps(55) == 6;
  }

  /** Every result in the list is CALIBRATING. */
  predicate AllCalibrating(rs: seq<CalibrationResult>)
  {
    forall i :: 0 <= i < |rs| ==> rs[i].status == Calibrating
  }

  /** From the start of the vertical stage, seventeen all-visible frames
      complete both vertical stages and enter the horizontal one with the
      height still at its initial 50. */
  lemma VerticalPhase(s: CalState, frames: seq<Frame>)
    requires s == Initial().(stage := Vertical)
    requires |frames| == 17
    requires forall i :: 0 <= i < |frames| ==> AllVisible(frames[i])
    ensures var t := Run(s, frames).0;
      && t.stage == Horizontal && t.stageIterationCount == 0 && t.consecutiveSuccesses == 0
      && t.height == 50
    ensures AllCalibrating(Run(s, frames).1)
  {
    GrowthFromFifty();
    var f1, f2 := frames[..7], frames[7..];
    assert frames == f1 + f2;
    ExpansionCompletes(s, f1);
    var s2 := Run(s, f1).0;
    FineTuneCompletes(s2, f2);
    RunAppend(s, f1, f2);
  }

  /** From a fresh horizontal stage at height 50, seventeen all-visible
      frames end in CALIBRATED, every earlier step reporting CALIBRATING. */
  lemma HorizontalPhase(s: CalState, frames: seq<Frame>)
    requires s.stage == Horizontal && s.stageIterationCount == 0 && s.consecutiveSuccesses == 0
    requires s.height == 50
    requires |frames| == 17
    requires forall i :: 0 <= i < |frames| ==> AllVisible(frames[i])
    ensures Run(s, frames).1[16].status == Calibrated
    ensures AllCalibrating(Run(s, frames).1[..16])
  {
    GrowthFromFifty();
    var f1, f2 := frames[..7], frames[7..];
    assert frames == f1 + f2;
    ExpansionCompletes(s, f1);
    var s2 := Run(s, f1).0;
    FineTuneCompletes(s2, f2);
    RunAppend(s, f1, f2);
  }

  /** From the start of the vertical stage, thirty-four all-visible frames
      end in CALIBRATED. */
  lemma BothPhases(frames: seq<Frame>)
    requires |frames| == 34
    requires forall i :: 0 <= i < |frames| ==> AllVisible(frames[i])
    ensures Run(Initial().(stage := Vertical), frames).1[33].status == Calibrated
    ensures AllCalibrating(Run(Initial().(stage := Vertical), frames).1[..33])
  {
    var s := Initial().(stage := Vertical);
    var f1, f2 := frames[..17], frames[17..];
    assert frames == f1 + f2;
    VerticalPhase(s, f1);
    var s2 := Run(s, f1).0;
    HorizontalPhase(s2, f2);
    RunAppend(s, f1, f2);
    var rs, rs1, rs2 := Run(s, frames).1, Run(s, f1).1, Run(s2, f2).1;
    assert rs == rs1 + rs2;
    forall i | 0 <= i < 33
      ensures rs[i].status == Calibrating
    {
      if i < 17 {
        assert rs[i] == rs1[i];
      } else {
        assert rs[i] == rs2[..16][i - 17];
      }
    }
  }

  /** If every frame shows all four markers, the calibration reports
      CALIBRATED on its 35th step (well within 2 x MAX_STAGE_ITERATIONS),
      with every earlier step CALIBRATING. */
  lemma AllVisibleCalibrates(frames: seq<Frame>)
    requires |frames| == 35
    requires forall i :: 0 <= i < |frames| ==> AllVisible(frames[i])
    ensures Run(Initial(), frames).1[34].status == Calibrated
    ensures AllCalibrating(Run(Initial(), frames).1[..34])
  {
    FirstStep(frames[0]);
    RunCons(Initial(), frames);
    var rest := Run(Initial().(stage := Vertical), frames[1..]).1;
    BothPhases(frames[1..]);
    var rs := Run(Initial(), frames).1;
    assert rs == [CalibrateStep(Initial(), frames[0]).1] + rest;
    forall i | 0 <= i < 34
      ensures rs[i].status == Calibrating
    {
      if i > 0 {
        assert rs[i] == rest[..33][i - 1];
      }
    }
  }
}
