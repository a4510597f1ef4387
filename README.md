# Depth-gated hand tracking and two-camera fingertip drawing, in Dafny

This project models the sequential logic of two small hand-tracking front ends.

**The Kinect compositor (`hand_tracking.py`)** runs one pass per frame. It reads a raw
depth frame and the detector's hands. For each hand it turns the index fingertip's
normalised landmark into a pixel (`round(x*640)`, `round(y*480)`) and samples the raw
depth there. It accepts the hand when the sample lies strictly between 630 and 670. It
starts from an all-white canvas: an accepted hand draws its skeleton, a rejected hand
multiplies the whole canvas by 0. The finished canvas is shifted 20 columns right and
110 rows down with a black border. `pretty_depth` is the depth normaliser: it clips to
[0, 1023] in place, shifts right by two in place, and returns an 8-bit copy. Module
`HandTracking` (hand_tracking.dfy) holds all of this.

- Depth frames are `array2<int>`. Canvases are `array3<int>` (row, column, channel).
- The per-hand `for` loop is a `while` loop with invariants.
- numpy's whole-array operations (`np.clip(..., out)`, `>>=`, `fill`, `*=`) are forall
  statements. `astype` copies and `warpAffine` are array allocations with an initialiser.
- Module `Landmarks` (landmarks.dfy) holds the hand: 21 landmarks, index fingertip 8.
  The browser program uses the same hand type.

**The browser front end (`script.ts`; `js/script.js` is its compiled output, identical logic)**
keeps, per camera, a sliding window of mirrored fingertip points (`HandsCamera`). Once the
window holds `lineSmoothingSteps` points, each new fingertip does the following:
- the window mean becomes the new line point;
- a stroke is issued from the old line point when drawing is on and the pair's distance
  gate allows it;
- the oldest point is dropped.

`MultiHandsCamera` pairs the cameras:
- a flag per camera serves as an all-arrived barrier;
- the round that completes the barrier rescores the pair with the "distance" formula
  `WIDTH + HEIGHT - Σ|x0-xi| + Σ|y0-yi|`, clears the flags and counts a processed frame;
- the frame counter is read-and-reset.

Module `Smoothing` (smoothing.dfy) states this as values: `Feed`/`FeedAll` for the window,
`DistanceScore`, `Arrive`/`Rounds` for the barrier. Module `Cameras` (cameras.dfy) has the
classes `Canvas` (the shared canvas, as the list of strokes issued on it), `HandsCamera` and
`MultiHandsCamera`. Their methods update fields as the source does and are proved against
those functions.

Three behaviours of the code that the model keeps:
- The fingertip pixel is not clamped. A negative index reads from the far edge
  (`NegativeColumnWraps`), and an index past the end raises IndexError. That is
  `ProcessFrame`'s `fault`, which ends the program.
- A reject zeroes only what was drawn so far. A later accepted hand draws on the zeroed
  canvas, so the frame is decided by the hands after the last reject (`LastRejectDecides`).
  A rejected last hand gives a fully black frame (`RejectLastBlanks`).
- The gate band, shift and resolution are constants in the code.

`pretty_depth` is defined but the frame loop never calls it. The gate samples the raw
depth.

`onResults`, when a result has no landmark list, calls `resetCurrentDistanceToCamera` on
its pair without checking that it has one. Lines 236 and 257 do check. With a single
camera this throws a TypeError and changes nothing; `OnResults` reports it as `typeError`.

## Model

| member | source | states |
|---|---|---|
| HandTracking.PrettyValue | hand_tracking.py:16-20 | each normalised sample is `clip(v, 0, 1023) >> 2`: it lies in [0, 255], every v ≥ 1023 gives 255, every v ≤ 0 gives 0, and in range `4r ≤ v < 4r + 4` |
| HandTracking.PrettyValueMonotone | hand_tracking.py:17-18 | a larger raw depth never normalises to a smaller value |
| HandTracking.PrettyDepth | hand_tracking.py:16-20 | overwrites every cell of the argument with its normalised value, then returns a fresh array of the same shape holding the same values. The 8-bit cast loses nothing |
| HandTracking.Clip | hand_tracking.py:17 | the clipped value lies in [lo, hi], equals v inside, and is the nearer bound outside |
| HandTracking.PyRound | hand_tracking.py:52-53 | Python `round`: the result is within 1/2 of the argument, and on a tie it is even |
| HandTracking.PyRoundUnique | hand_tracking.py:52-53 | those two properties determine the rounded integer uniquely |
| HandTracking.PyIndex | hand_tracking.py:55 | Python indexing of an axis of length n: defined iff -n ≤ i < n; a non-negative index is itself, a negative one counts from the end |
| HandTracking.SampleTip | hand_tracking.py:52-55 | `depth[round(y*480)][round(x*640)]`: row from y, column from x. Defined iff both indices are valid Python indices of the frame. The sample is read at the wrapped indices, which for a non-negative pixel is the pixel itself |
| HandTracking.NegativeColumnWraps | hand_tracking.py:52-55 | a fingertip whose column rounds to -1 samples the rightmost column, not a clamped one |
| HandTracking.GateBoundaries | hand_tracking.py:57 | the gate is open, so 630 and 670 are rejected and 631, 669 and 650 accepted |
| HandTracking.LastRejectDecides | hand_tracking.py:51-61 | with a rejected hand at position r, the composite equals the hands after r drawn on a canvas zeroed at r, whatever came before |
| HandTracking.RejectLastBlanks | hand_tracking.py:57-61 | a rejected last hand leaves every channel 0 |
| HandTracking.AllAcceptedDraws | hand_tracking.py:51-59 | when every hand is accepted, the composite is the plain drawing of all hands in order, independent of the depth frame |
| HandTracking.NoHandFrame | hand_tracking.py:41-50 | with no hand the output is the all-255 canvas translated (255 where the source pixel exists, 0 in the vacated band), whatever the depth frame holds |
| HandTracking.AcceptScenario | hand_tracking.py:52-72 | depth 650 under a fingertip at (0.5, 0.5) of a 640x480 frame: pixel (240, 320), accepted, and the output is the hand drawn on white and shifted by (110, 20) |
| HandTracking.RejectScenario | hand_tracking.py:52-72 | the same hand over depth 700 is rejected and the output is black everywhere |
| HandTracking.Fill | hand_tracking.py:42 | every channel of every pixel becomes the given value |
| HandTracking.Scale | hand_tracking.py:61 | every channel is multiplied in place, with 8-bit wrap-around |
| HandTracking.DrawLandmarks | hand_tracking.py:58-59 | the drawing routine changes only the canvas. Each channel becomes the brush's value for that hand, position and previous value |
| HandTracking.Translate | hand_tracking.py:66-72 | fresh canvas of the same dimensions; `out[r][c] = in[r-110][c-20]` when that index exists, else 0 |
| HandTracking.ProcessFrame | hand_tracking.py:30-72 | one frame: fails (IndexError) iff some hand's fingertip is not indexable. Otherwise every output channel is the translated composite of the white canvas with each hand drawn or zeroing in order |
| HandTracking.TipPixel | hand_tracking.py:52-53 | the fingertip pixel `(round(y*480), round(x*640))`: each coordinate is within 1/2 of the scaled landmark, with nothing clamping it |
| HandTracking.InBand | hand_tracking.py:57 | the gate `630 < d < 670` on the sampled depth |
| HandTracking.Accepts | hand_tracking.py:55-57 | a hand is accepted iff its fingertip can be sampled and the sample is in the band |
| HandTracking.Composite | hand_tracking.py:41-61 | reference definition of one canvas channel after the hands in order: an accepted hand applies the brush, a rejected one sets the channel to 0 |
| HandTracking.DrawAll | hand_tracking.py:58-59 | reference definition of drawing every hand in order with no gate |
| HandTracking.FramePixel | hand_tracking.py:41-72 | reference definition of one output channel: the composite of the white canvas shifted by (110, 20), 0 in the vacated band |
| Smoothing.MirroredTip | script.ts:217-220 | reference definition of the mirrored fingertip `(W - lx*W, ly*H)` |
| Smoothing.Sum | script.ts:223-228 | reference definition of the componentwise sum of the window |
| Smoothing.Mean | script.ts:223-229 | reference definition of the window mean, the sum divided by the window length |
| Smoothing.StrokeGate | script.ts:231-241 | a stroke is issued iff drawing is on, a previous line point exists, and there is no pair or the pair's gate is open |
| Smoothing.DistanceGateOpen | script.ts:236-241 | the pair's gate `1000 < distance < 1300`; an undefined score keeps it closed |
| Smoothing.Feed | script.ts:222-263 | one fingertip step on the camera's state; the window bound `lineSmoothingSteps` is kept |
| Smoothing.FeedAll | script.ts:216-264 | every fingertip of one result in order; the window bound is kept |
| Smoothing.AbsDiffX | script.ts:298-311 | `Σ abs(x0 - xi)` over the later points, never negative |
| Smoothing.AbsDiffY | script.ts:298-311 | `Σ abs(y0 - yi)` over the later points, never negative |
| Smoothing.DistanceScore | script.ts:298-311 | `WIDTH + HEIGHT - Σ abs(x0-xi) + Σ abs(y0-yi)`, signs as written; with at most one camera it is WIDTH + HEIGHT |
| Smoothing.MirroredTipInCanvas | script.ts:217-220 | a landmark inside the image gives a tip inside the W x H canvas |
| Smoothing.MirroredTipOrder | script.ts:217-220 | mirroring `x = W - lx*W`, `y = ly*H` reverses left/right and keeps top/bottom order (same in js/script.js:160-162) |
| Smoothing.MeanWithinBounds | script.ts:223-229 | the averaged point lies inside every box containing the whole window |
| Smoothing.MeanOfSteadyWindow | script.ts:223-229 | a window holding one point repeated averages to that point |
| Smoothing.FeedStep | script.ts:222-263 | one fingertip appends exactly one point, after removing the oldest when the window was full. A stroke is added iff the window was full and the stroke gate holds. The new line point is the mean of the window before the push |
| Smoothing.FeedAllWindow | script.ts:222-263 | after any run of fingertips the window is the most recent `lineSmoothingSteps` points seen. So its length never exceeds the bound (same in js/script.js:163-196) |
| Smoothing.FeedAllTracked | script.ts:253-256 | `handTracked` ends true iff it was true or some fingertip found the window full: it only ever goes from false to true |
| Smoothing.FeedAllLastLine | script.ts:222-260 | after a result that averaged, the line point is the mean of the window as it stood before the last fingertip was pushed |
| Smoothing.FeedAllKeepsStrokes | script.ts:231-251 | strokes are only appended to the canvas |
| Smoothing.NoColorNeverStrokes | script.ts:231-234 | with draw colour "none", no result strokes |
| Smoothing.AgreeingPointsCloseGate | script.ts:298-311 | when all tracking points agree (in particular, with one camera) the score is WIDTH + HEIGHT = 1400, outside the gate |
| Smoothing.TwoCameraGate | script.ts:298-311 | for two cameras the score is `1400 - abs(dx) + abs(dy)`, and the (1000, 1300) gate is open iff `100 < abs(dx) - abs(dy) < 400` (same in js/script.js:223-231, 276-278) |
| Smoothing.Arrive | script.ts:367-402 | a callback from camera i completes the round iff every other flag was set. A completed round clears all flags, otherwise only flag i is set |
| Smoothing.RoundsNeedEveryCamera | script.ts:367-402 | with n cameras, k callbacks complete at most (k + flags already set) / n rounds: no frame is counted until every camera has called back |
| Smoothing.FullSweepCompletesOneRound | script.ts:356-402 | from cleared flags, each camera calling back once, in any order, completes exactly one round (same in js/script.js:264-303) |
| Cameras.Average | script.ts:223-229 | the summing loop followed by the division yields the mean of the window (also the centroid at script.ts:376-383) |
| Cameras.Retarget | script.ts:405-414 | entries of the reporting camera get the new point. Every other entry and every entry's camera is unchanged |
| Cameras.RetargetOverrides | script.ts:405-414 | a later report of the same camera overrides an earlier one |
| Cameras.HandsCamera.constructor | script.ts:55-68 | a camera starts with an empty window, no line point, not tracked, not initialised, no pair |
| Cameras.HandsCamera.InitializeHandObserving | script.ts:172-174 | the camera becomes initialised |
| Cameras.HandsCamera.SetMultiHandsCamera | script.ts:270-272 | records the pair |
| Cameras.HandsCamera.TrackTip | script.ts:217-263 | the per-hand loop body: the new state is `Feed` of the old one. When the window was full, the pair's entry for this camera is set to the window mean and nothing else of the pair changes. `initialized` is unchanged |
| Cameras.HandsCamera.OnResults | script.ts:214-268 | with a landmark list, the state is `FeedAll` over the mirrored tips, and the pair's entry holds the final line point iff some tip averaged. Without a list the pair's score becomes undefined, or a TypeError when there is no pair. The window bound is kept, `handTracked` never goes back to false and `initialized` is unchanged (same in js/script.js:157-202) |
| Cameras.HandsCamera.IsInitialized | script.ts:108-110 | reads the camera's `initialized` field |
| Cameras.MultiHandsCamera.GetCurrentDistanceToCamera | script.ts:323-325 | reads the pair's distance score |
| Cameras.MultiHandsCamera.constructor | script.ts:284-288 | one tracking entry (camera, (0, 0)) and one false flag per camera, registered with every camera; counter 0, score undefined. Only the cameras' pair field is written, so each camera keeps its window, line point and flags, and stays valid |
| Cameras.MultiHandsCamera.Initialize | script.ts:290-296 | appends one entry at (0, 0) and one false flag per camera, in order, and registers with each camera, writing only the cameras' pair field (same in js/script.js:216-222) |
| Cameras.MultiHandsCamera.UpdateDistanceToCamera | script.ts:298-311 | the loop computes `DistanceScore` of the tracking points, with the sign of the y term as written |
| Cameras.MultiHandsCamera.GetProcessedFrames | script.ts:313-317 | returns the counter and leaves it at 0 (same in js/script.js:232-236) |
| Cameras.MultiHandsCamera.ResetCurrentDistanceToCamera | script.ts:319-321 | the score becomes undefined |
| Cameras.MultiHandsCamera.AllHandCamerasInitialized | script.ts:327-334 | true iff every camera is initialised |
| Cameras.MultiHandsCamera.AllFramesCalledBack | script.ts:356-363 | true iff every flag is set |
| Cameras.MultiHandsCamera.FrameCalledBack | script.ts:367-403 | flags become `Arrive(old, id)`. While some flag is clear, nothing else changes. The completing callback sets the score to `DistanceScore`, strokes to the centroid and moves the last draw point iff drawing is on and the gate is open, and adds exactly 1 to the counter (same in js/script.js:272-303) |
| Cameras.MultiHandsCamera.SetTrackingPoint | script.ts:405-414 | the tracking points become `Retarget(old, camera, p)` (same in js/script.js:304-310) |

## Left out

- Sensor and detector I/O. These are the freenect frame grabs, MediaPipe `Hands`, `process`/`send` and the registration of `onResults`. Depth frames and hands are inputs.
- The skeleton drawing routine and its connection table. These are library code. The drawing is a `Brush` parameter: per channel, a function of the hand, the position and the previous value. The model does not rasterise circles or lines.
- IEEE floating point. Coordinates, averages and scores are exact reals. `round(x*640)` rounds the exact product.
- Display, key polling, the ESC exit and `hands.close()` (hand_tracking.py:74-79) are I/O. So is `doloop`, which is never called and uses an undefined name (hand_tracking.py:82-96).
- Browser set-up and scheduling (script.ts:70-207, 336-354, 417-444). This is device enumeration, getUserMedia, status and debug text, `setTimeout`/`requestAnimationFrame` polling, `startTracking`, `callFrames` and `callFrame`. Each callback body is modelled as a sequential method; callback interleaving is not modelled.
- Canvas drawing calls become a `Stroke` appended to the `Canvas` object: endpoints and colour only. Line cap and style are not recorded.
- A `lineSmoothingSteps` of 0 is excluded by the `HandsCamera` constructor's precondition. No caller passes it. The program would then average an empty window and grow it without bound.
- `frameCalledBack` is given only camera indices below the number of flags. The program's own callbacks always are; JavaScript would otherwise grow the array.
- calibration.ts and js/calibration.js are not part of this model. They are unfinished: empty and missing returns, and GPU shaders.
