# ScryForge client core in Dafny

This project models the decision logic of the ScryForge client. ScryForge is a
Foundry VTT module. It watches a physical table through a camera and moves the
actors on the virtual table to where their coloured tokens stand. The model
covers six parts of the client:

- **The advanced viewport calibrator** (`advanced_calibrator.dfy`). It is a
  five-stage state machine over a rectangle in 0..100 "cartesian" units:
  `init`, `vertical`, `vertical_fine_tune`, `horizontal`,
  `horizontal_fine_tune`, then `done`.
  - Each step looks at one detector answer. It grows the rectangle while both
    watched edge pairs of markers stay visible. It shrinks the rectangle and
    moves its centre when a pair is lost.
  - In the fine-tuning stages it waits for ten consecutive frames that show
    all four markers.
  - A stage fails after fifty steps.
  - `CalibrationIterator` is a class whose fields are the iterator's fields.
    Its methods are proved to follow the pure step function `CalibrateStep`
    and the `next` wrapper `NextStep`.
- **The simple viewport calibrator** (`viewport_calibrator.dfy`). It is a
  binary search between the largest region known to lose the markers and the
  largest region known to show them. The ten-attempt detection loop is a
  method with loop invariants. `ViewportIterator` follows the step function
  `CalibrateStep`.
- **Marker sets and `markersToPoints`** (`types.dfy`).
- **`clamp` and `average`** (`utils.dfy`).
- **The `ScryForge` facade** (`scryforge.dfy`). It holds the map from token
  category to tracked actor, the camera, the calibration and the "scry in
  flight" flag. `scry` turns the orb's category positions into actor
  positions.
- **The authentication decorator** (`auth_decorator.dfy`). On an
  authentication error it refreshes the vault's tokens and retries the call
  once.

Collaborators are not modelled. They appear as parameters that stand for what
they returned:

- the camera and marker detector, as a `Frame` or one `Attempt` per try;
- the scrying orb and the world-transformer factory, as total functions;
- the wrapped server and the authentication server, as `Outcome` values and
  a refresh function.

JavaScript numbers are modelled as `real` for the normalised regions. The
advanced calibrator's cartesian values are `int`, because every value it
produces is a whole number (steps and buffers of 5, sizes capped at 90).

A marker slot has three states: `Undefined` (key missing), `Null` and
`At(x, y)`. The source reads slots in three different ways:

- `isPairVisible` tests `!== undefined`, so a `null` marker counts as
  visible;
- fine tuning uses truthiness, so `null` counts as missing;
- `markersToPoints` drops both.

Where the code and its documented intent differ, the model follows the code:

- **Advanced calibrator, FAILED results.** `next` (advancedviewportcalibrator.ts:93-101)
  ends the sequence only after a CALIBRATED result. A FAILED result from the
  iteration cap or from a collaborator error does not end it, and the next
  call takes another step (`FailedDoesNotEndIteration`). The caller in
  src/main.ts:227-236 stops on FAILED itself.
- **Advanced calibrator, losing one edge pair.** This narrows the rectangle
  to `max(MIN_SIZE, width - 5)`. At `MIN_SIZE` the width therefore stays at
  25 and only the centre moves (`VerticalLossRules`).
- **Advanced calibrator, centre shift.** The comments at
  advancedviewportcalibrator.ts:273 and :277 say the centre moves by half a
  step. The code moves it by a whole step, and the model follows the code.
- **Simple calibrator, `done`.** Its `next` reports `done` on the call
  *after* a CALIBRATED or FAILED result, and that call still runs
  `calibrate` (`NextDoneIff`).

## Model

| member | source | states |
|---|---|---|
| Utils.Average | src/utils.ts:1-3 | the result is equidistant from both arguments and lies between them |
| Utils.AverageSymmetric | src/utils.ts:1-3 | the order of the arguments does not matter |
| Utils.Clamp | src/utils.ts:9-11 | the result never exceeds the upper bound; it is at least the lower bound when the bounds are ordered; a value already in range is returned unchanged; a value below is raised to the lower bound, a value above lowered to the upper; with the bounds the wrong way round the upper bound is returned |
| Utils.ClampIdempotent | src/utils.ts:9-11 | clamping twice is clamping once |
| Types.SlotPoints | src/types.ts:150-151 | a slot contributes exactly one point iff it carries a position (missing and null contribute nothing), and that point is its position |
| Types.PresentPoints | src/types.ts:150-151 | the filter-then-map yields one point per present slot, each taken from a present slot |
| Types.MarkersToPoints | src/types.ts:148-152 | the result has one point per present corner, at most four |
| Types.MarkersToPointsOrder | src/types.ts:148-152 | points come out top-left, top-right, bottom-right, bottom-left, each corner that is missing or null skipped |
| Types.AllCornersGiveFourPoints | src/types.ts:148-152 | with all four corners present the result is exactly the four corners in that order |
| AdvancedCalibrator.IsPairVisible | src/advancedviewportcalibrator.ts:244-247 | a pair is visible iff neither of its two named markers is missing; a null marker counts as visible |
| AdvancedCalibrator.CartesianToCalibration | src/advancedviewportcalibrator.ts:115-123 | every field of the region is in [0, 1], markers are null, and in range the region is ((cx - w/2)/100, (cy - h/2)/100, w/100, h/100) |
| AdvancedCalibrator.CalibrationIterator.constructor | src/advancedviewportcalibrator.ts:43-67 | starts in `init`, centre (50, 50), 50 x 50, counters zero, no pair seen, no last result |
| AdvancedCalibrator.CalibrationIterator.Next | src/advancedviewportcalibrator.ts:93-101 | follows `NextStep`: after CALIBRATED hands back the same result with done, otherwise takes a step, records its result and reports not done; keeps the iterator invariant |
| AdvancedCalibrator.CalibrationIterator.Calibrate | src/advancedviewportcalibrator.ts:154-236 | follows `CalibrateStep`: count the step, fail past fifty steps, leave `init` without looking at the frame, fail on a collaborator error, else run the stage switch |
| AdvancedCalibrator.CalibrationIterator.ProcessMarkers | src/advancedviewportcalibrator.ts:191-227 | the stage switch: run the stage's processing, move to the next stage with fresh counters when it completes, CALIBRATED when the horizontal fine tuning completes |
| AdvancedCalibrator.CalibrationIterator.ProcessVerticalExpansion | src/advancedviewportcalibrator.ts:249-316 | the state and completion flag of `VerticalExpansion`, stage unchanged |
| AdvancedCalibrator.CalibrationIterator.ProcessHorizontalExpansion | src/advancedviewportcalibrator.ts:318-365 | the state and completion flag of `HorizontalExpansion`, stage unchanged |
| AdvancedCalibrator.CalibrationIterator.ProcessFineTuning | src/advancedviewportcalibrator.ts:367-424 | the state and completion flag of `FineTuning`, stage unchanged |
| AdvancedCalibrator.VerticalExpansionKeepsInv | src/advancedviewportcalibrator.ts:249-316 | vertical expansion keeps the width in [25, 90] and the pair flags consistent |
| AdvancedCalibrator.HorizontalExpansionKeepsInv | src/advancedviewportcalibrator.ts:318-365 | horizontal expansion keeps the height in [25, 90] and the pair flags consistent |
| AdvancedCalibrator.FineTuningKeepsInv | src/advancedviewportcalibrator.ts:367-424 | fine tuning keeps both sizes in [25, 90] and the streak within ten |
| AdvancedCalibrator.StageStepKeepsInv | src/advancedviewportcalibrator.ts:191-227 | the stage switch keeps the invariant |
| AdvancedCalibrator.CalibrateStepPreservesInv | src/advancedviewportcalibrator.ts:154-236 | every step keeps the invariant: sizes never leave [MIN_SIZE, 90], even where both pairs are lost and the size drops by BUFFER without a floor |
| AdvancedCalibrator.NextPreservesIterInv | src/advancedviewportcalibrator.ts:93-101 | `next` keeps the invariant and "stage is done iff the last result is CALIBRATED" |
| AdvancedCalibrator.ReportsNewRegion | src/advancedviewportcalibrator.ts:154-236 | the region every step reports is the converted state it leaves behind |
| AdvancedCalibrator.ReportedSizeBounds | src/advancedviewportcalibrator.ts:154-236 | every reported region is a fraction of the frame, with width and height in [0.25, 0.9] |
| AdvancedCalibrator.FirstStep | src/advancedviewportcalibrator.ts:172-180 | the first step ignores the frame, reports (0.25, 0.25, 0.5, 0.5) CALIBRATING and enters `vertical`; `next` is not done |
| AdvancedCalibrator.StageIterationCap | src/advancedviewportcalibrator.ts:157-170 | a step with fifty or more steps already taken in the stage fails with the current region and changes only the count |
| AdvancedCalibrator.StageCounter | src/advancedviewportcalibrator.ts:157-211 | the count goes up by one when the stage stays, and is zero after entering any stage but `done` |
| AdvancedCalibrator.CollaboratorErrorFails | src/advancedviewportcalibrator.ts:229-235 | a camera or detector error fails the step with the current region and changes only the count |
| AdvancedCalibrator.VerticalLossRules | src/advancedviewportcalibrator.ts:259-291 | left lost alone moves the centre right by 5 and narrows to max(25, w - 5); right lost alone moves it left; both lost narrows by BUFFER and ends the stage; no loss moves nothing |
| AdvancedCalibrator.HorizontalLossRules | src/advancedviewportcalibrator.ts:319-350 | the same rules on the vertical centre and the height |
| AdvancedCalibrator.UnseenPairNeverMovesCentre | src/advancedviewportcalibrator.ts:262-263 | a pair not seen on the previous step cannot be lost, so it never moves the centre |
| AdvancedCalibrator.ExpansionGrowth | src/advancedviewportcalibrator.ts:293-313 | with both watched pairs visible the size grows by 5, capped at 90; reaching 85 pulls it back by BUFFER and ends the stage |
| AdvancedCalibrator.ExpansionStageFrames | src/advancedviewportcalibrator.ts:249-365 | the vertical stage never touches height, vertical centre or top/bottom flags; the horizontal stage never touches width, horizontal centre or left/right flags |
| AdvancedCalibrator.FineTuneStageFrames | src/advancedviewportcalibrator.ts:367-424 | fine tuning moves no centre and no flag, and changes only its own dimension until the final buffer |
| AdvancedCalibrator.FineTuneRules | src/advancedviewportcalibrator.ts:379-424 | a frame missing a marker (absent or null) resets the streak and shrinks the stage's dimension; a full frame extends the streak; the tenth ends the stage, the horizontal one with CALIBRATED and both sizes pulled in by FINAL_BUFFER |
| AdvancedCalibrator.NextDoneIffCalibrated | src/advancedviewportcalibrator.ts:93-101 | `next` is done iff the last result was CALIBRATED, and then returns it again without a step |
| AdvancedCalibrator.FailedDoesNotEndIteration | src/advancedviewportcalibrator.ts:93-101 | after a FAILED result `next` is not done and takes another step |
| AdvancedCalibrator.CalibratedIsFinal | src/advancedviewportcalibrator.ts:93-96 | once CALIBRATED has been returned, every later call is done, returns that result and changes nothing |
| AdvancedCalibrator.CalibratedStepEndsIteration | src/advancedviewportcalibrator.ts:213-219 | a step reporting CALIBRATED leaves the stage `done` and the iterator finished |
| AdvancedCalibrator.AbsentPairFailsStage | src/advancedviewportcalibrator.ts:154-236 | an edge pair never seen keeps its expansion stage CALIBRATING until the fifty steps are used up, then FAILED |
| AdvancedCalibrator.MissingMarkerFailsFineTune | src/advancedviewportcalibrator.ts:379-401 | a marker missing in every frame keeps a fine-tuning stage CALIBRATING until the fifty steps are used up, then FAILED |
| AdvancedCalibrator.FineTuneCompletes | src/advancedviewportcalibrator.ts:403-421 | the frames needed to finish the streak, all full, complete fine tuning: vertical moves to `horizontal`, horizontal reports CALIBRATED with the final buffer applied |
| AdvancedCalibrator.ExpansionCompletes | src/advancedviewportcalibrator.ts:293-312 | with all markers visible an expansion stage ends after `GrowthSteps` frames, its dimension in [80, 85], the other untouched |
| AdvancedCalibrator.VerticalPhase | src/advancedviewportcalibrator.ts:191-205 | seventeen full frames from a fresh vertical stage reach a fresh horizontal stage, all CALIBRATING |
| AdvancedCalibrator.HorizontalPhase | src/advancedviewportcalibrator.ts:206-221 | seventeen full frames from a fresh horizontal stage at height 50 end in CALIBRATED |
| AdvancedCalibrator.AllVisibleCalibrates | src/advancedviewportcalibrator.ts:154-236 | with all four markers in every frame, the calibration reports CALIBRATED on step 35 and CALIBRATING on each step before |
| ViewportCalibrator.FirstDetection | src/viewportcalibrator.ts:63-73 | not found iff every attempt was empty; otherwise the outcome of the first non-empty attempt |
| ViewportCalibrator.AttemptDetection | src/viewportcalibrator.ts:60-73 | the ten-attempt loop ends with the first non-empty attempt, or not found iff all ten were empty; found markers came from one attempt |
| ViewportCalibrator.Toward | src/viewportcalibrator.ts:107-110 | the next region is in [0, 1] with null markers and, for regions in range, exactly half-way between the two in every field |
| ViewportCalibrator.Padded | src/viewportcalibrator.ts:116-127 | the padded region is in [0, 1]; where room is left it is moved in by 0.05 and shrunk by 0.2 in each direction; an origin above 0.95 becomes 1, one below -0.05 becomes 0; a size below 0.2 becomes 0, one above 1.2 becomes 1 |
| ViewportCalibrator.ViewportIterator.constructor | src/viewportcalibrator.ts:21-40 | no result yet, no success, known maximum the full frame, known minimum the centre point |
| ViewportCalibrator.ViewportIterator.BinarySearchCalibration | src/viewportcalibrator.ts:86-159 | follows `Search`, including the guard for a missing last result |
| ViewportCalibrator.ViewportIterator.Calibrate | src/viewportcalibrator.ts:44-84 | follows `CalibrateStep`: the fixed first region, a FAILED result with the previous region on an exception, otherwise the markers attached and the search run |
| ViewportCalibrator.ViewportIterator.Next | src/viewportcalibrator.ts:165-172 | follows `NextStep` and keeps every region inside the frame |
| ViewportCalibrator.CalibrateStepKeepsInv | src/viewportcalibrator.ts:44-159 | both bounds and the last region stay fractions of the frame, so every reported region is one |
| ViewportCalibrator.FirstCall | src/viewportcalibrator.ts:45-57 | the first call looks at no frame and proposes (0.05, 0.05, 0.8, 0.8) CALIBRATING; `next` is not done |
| ViewportCalibrator.ErrorKeepsRegion | src/viewportcalibrator.ts:77-83 | an exception in the detection loop gives FAILED with the previous region and leaves the search bounds alone |
| ViewportCalibrator.SearchStatus | src/viewportcalibrator.ts:95-158 | the search continues iff both gaps to the relevant bound exceed 0.10; it fails iff the markers were missed, the gap is small and no success was ever seen; the success flag records any success |
| ViewportCalibrator.GoBiggerHalvesGap | src/viewportcalibrator.ts:99-114 | after a success with room left, the region becomes the known minimum and the next region halves the gap to the known maximum in every field |
| ViewportCalibrator.GoSmallerHalvesGap | src/viewportcalibrator.ts:130-145 | after a miss the region becomes the known maximum and the next region halves the gap to the known minimum |
| ViewportCalibrator.CloseSuccessIsPadded | src/viewportcalibrator.ts:115-127 | a success close to the known maximum ends CALIBRATED with the padded region |
| ViewportCalibrator.CloseMissFallsBackToMin | src/viewportcalibrator.ts:147-158 | a miss close to the known minimum returns the known minimum, CALIBRATED if any success was seen and FAILED otherwise |
| ViewportCalibrator.SuccessIsRemembered | src/viewportcalibrator.ts:96 | once set, the success flag is never cleared |
| ViewportCalibrator.DetectedMarkersKept | src/viewportcalibrator.ts:66-103 | markers detected in a region that becomes the known minimum stay attached to it |
| ViewportCalibrator.NextDoneIff | src/viewportcalibrator.ts:165-172 | `next` is done iff the status before the call was not CALIBRATING, and always runs `calibrate` |
| ScryForgeCore.Lookup | src/scryforge.ts:40 | the entry found has the category asked for; none iff the category is not tracked |
| ScryForgeCore.FindByActor | src/scryforge.ts:68-70 | the first tracked entry of the actor; none iff no entry belongs to the actor |
| ScryForgeCore.UpsertCategories | src/scryforge.ts:56-58 | `set` keeps existing keys in place and appends a new key at the end |
| ScryForgeCore.UpsertLookup | src/scryforge.ts:56-58 | after `set` the category maps to the new actor and every other category to what it mapped to before |
| ScryForgeCore.UpsertKeepsDistinct | src/scryforge.ts:56-58 | `set` keeps at most one entry per category and grows the map only for a new category |
| ScryForgeCore.WithoutMembers | src/scryforge.ts:60-66 | after removal an entry is present iff it was present and belongs to another actor |
| ScryForgeCore.WithoutKeepsDistinct | src/scryforge.ts:60-66 | removal keeps at most one entry per category |
| ScryForgeCore.LookupWithout | src/scryforge.ts:60-66 | after removal a category maps to nothing if it was the actor's and is unchanged otherwise |
| ScryForgeCore.RemoveMatchStep | src/scryforge.ts:61-64 | deleting the visited entry's category during the walk removes exactly that entry |
| ScryForgeCore.PositionsOf | src/scryforge.ts:37-44 | no more actor positions than category positions, none with an empty actor id |
| ScryForgeCore.PositionsComplete | src/scryforge.ts:37-44 | every reported position is a tracked category's token in world coordinates, every such token is reported, and its actor is tracked |
| ScryForgeCore.PositionsOfSingle | src/scryforge.ts:37-44 | one token gives its actor's position in world coordinates when its category is tracked, and nothing otherwise |
| ScryForgeCore.PositionsOfAppend | src/scryforge.ts:37-44 | the positions of two token lists are the first list's followed by the second's, so the orb's order is kept and each token is reported at most once |
| ScryForgeCore.TooFewMarkersGiveNothing | src/scryforge.ts:33-35 | missing or fewer than four marker points give no positions |
| ScryForgeCore.ScryReportsTrackedActors | src/scryforge.ts:29-44 | a completed scry reports only tracked actors with non-empty ids |
| ScryForgeCore.ScryForge.constructor | src/scryforge.ts:13-17 | an empty map, no camera, no calibration, no scry in flight |
| ScryForgeCore.ScryForge.CanScry | src/scryforge.ts:52-54 | true iff a camera has been set |
| ScryForgeCore.ScryForge.SetCamera | src/scryforge.ts:80-82 | the camera becomes the one given, or none when `null` is given, so scrying is possible exactly when a camera is set; nothing else changes |
| ScryForgeCore.ScryForge.SetCalibration | src/scryforge.ts:88-90 | the calibration is replaced; nothing else changes |
| ScryForgeCore.ScryForge.UpdateActorCategory | src/scryforge.ts:56-58 | the map becomes `Upsert` of the old map and stays one entry per category |
| ScryForgeCore.ScryForge.RemoveActorCategory | src/scryforge.ts:60-66 | the walk-and-delete loop leaves exactly the entries of other actors, in order |
| ScryForgeCore.ScryForge.GetTrackedActors | src/scryforge.ts:72-74 | the entries in insertion order, one value per tracked category, each the entry its category maps to |
| ScryForgeCore.ScryForge.GetTrackedActor | src/scryforge.ts:68-70 | the first entry of that actor in insertion order, or none iff the actor is not tracked |
| ScryForgeCore.ScryForge.GetAvailableCategories | src/scryforge.ts:76-78 | the tracked categories in insertion order, one per entry |
| ScryForgeCore.ScryForge.BeginScry | src/scryforge.ts:19-30 | without a camera, "Camera not set"; with a scry in flight, no positions; otherwise the flag is raised |
| ScryForgeCore.ScryForge.FinishScry | src/scryforge.ts:29-49 | the outcome of the orb, the marker-count check and the transformer, with the in-flight flag cleared whatever happened |
| ScryForgeCore.ScryForge.Scry | src/scryforge.ts:19-50 | the two halves together; the early returns leave the in-flight flag as it was, a completed scry clears it; reported positions all carry an actor id; the map, camera and calibration are unchanged |
| AuthDecorator.TokenVault.SetKeys | src/types.ts:178 | both tokens replaced by the new pair |
| AuthDecorator.TokenVault.ClearToken | src/types.ts:179 | both tokens removed |
| AuthDecorator.ScryforgeAuthDecorator.HandleAuthError | src/scryforgeauthdecorator.ts:36-59 | follows `Recovery`: no usable tokens, a failed refresh or a failed retry clear the vault and raise the recovery-failed error; otherwise the new tokens are stored and the retry's value returned |
| AuthDecorator.ScryforgeAuthDecorator.Call | src/scryforgeauthdecorator.ts:10-21 | follows `Policy`: authentication errors are handled, anything else passes through |
| AuthDecorator.ScryforgeAuthDecorator.GetArucoLocations | src/scryforgeauthdecorator.ts:10-21 | follows `Policy` for marker detection |
| AuthDecorator.ScryforgeAuthDecorator.GetCategoryPositions | src/scryforgeauthdecorator.ts:23-34 | follows `Policy` for category positions |
| AuthDecorator.SuccessPassesThrough | src/scryforgeauthdecorator.ts:10-12 | a successful call returns its value: one server call, no refresh, vault unchanged |
| AuthDecorator.OtherErrorPropagates | src/scryforgeauthdecorator.ts:13-20 | a non-authentication error is re-thrown as is, vault unchanged, no refresh |
| AuthDecorator.MissingTokenClearsVault | src/scryforgeauthdecorator.ts:39-44 | a missing or empty token or refresh token: no refresh, vault cleared, recovery-failed error |
| AuthDecorator.RefreshUsesVaultTokens | src/scryforgeauthdecorator.ts:39-47 | the refresh request carries exactly the vault's two tokens |
| AuthDecorator.RefreshThenRetry | src/scryforgeauthdecorator.ts:46-53 | refresh then successful retry: the retry's value, the new tokens in the vault, two server calls |
| AuthDecorator.RecoveryFailureClearsVault | src/scryforgeauthdecorator.ts:54-58 | any failure after an authentication error ends with the vault cleared and the recovery-failed error |
| AuthDecorator.AtMostOneRetry | src/scryforgeauthdecorator.ts:10-21 | the wrapped server is called once or twice, twice iff an authentication error was followed by a successful refresh |
| AuthDecorator.VaultOutcomes | src/scryforgeauthdecorator.ts:36-59 | the vault ends unchanged, cleared, or holding the refreshed tokens; an authentication error reaches the caller only as the recovery-failed error with the vault cleared |

## Left out

- Camera capture, HTTP calls, `sleep`, `console` logging and the async/await machinery are left out. Each collaborator call is a parameter giving its outcome. A thrown exception is a distinct outcome value.
- The iterators' `return`, `throw` and `[Symbol.asyncIterator]` are left out. They do not touch the calibration state.
- The advanced calibrator's `updateTokenPairs` and the coordinates stored in its token pairs are left out. Only each pair's marker names are ever read (advancedviewportcalibrator.ts:244-247).
- `lastSuccessfulCalibration` is left out. It is written but never read.
- ViewportCalibrator: aliasing of calibration objects is not modelled. In the source `knownMin`, `knownMax` and the last result can share one object, and attaching markers to it (viewportcalibrator.ts:69) also changes the others' `markers`. The model copies regions by value, so only the region that gets the markers changes. The numeric fields, which drive the search, are the same either way.
- ViewportCalibrator.ViewportIterator.Calibrate: assumes the detector's answer is either null or a marker object. Other falsy answers are treated like null.
- ScryForgeCore: the world-coordinate transformer is left out, along with whether it needs exactly four points. Its construction is the factory parameter. A homography computed from real points is not part of this model.
- ScryForgeCore.ScryForge.Scry: models one scry running to completion. A concurrent scry can only be expressed by calling `BeginScry` and `FinishScry` separately.
- `getCamera` and `getCalibration` are reads of the `camera` and `calibration` fields.
- AuthDecorator: the token vault's implementation is not part of this model. `clearToken` is taken to remove both tokens.
- AuthDecorator: the wrapped server's own reaction to a 401 (clearing the vault before throwing) is not part of this model. The retried call's outcome is a parameter.
- AuthDecorator: assumes a refresh response carries both tokens. A response missing either would store `undefined`; this is not modelled.
- All regions use exact real arithmetic. Floating-point rounding (for example `0.8 - 0.2`) is not modelled.
