# Donkey Car input controllers, modelled in Dafny

This project models the per-frame control-value logic of a set of Unity
scripts. The scripts read a driving controller and turn its readings into a
throttle and a steering value in [-1, 1]. The controllers are a MOZA wheel and
pedals, a Logitech G27, a PS5 gamepad, the keyboard arrow keys, and mouse drags
on on-screen cubes. The WebSocket sender wraps both values into a
`DonkeyCarData` record and sends it to a Donkey Car.

Each script is one Dafny module:

- `DonkeyLink` (WebsocketTest.cs) — the sender.
  - The arrow keys step the held throttle and angle, each clamped to [-1,1].
  - The wheel, when all four of its input actions resolved, then overwrites both values.
  - Each handler may send one full-state frame. Sending is appending the record to the `sent` sequence.
- `MozaInput` (MozaInputTranslate.cs) — the MOZA reader.
  - Two pedal axes become one throttle: both are mapped, both pass a deadzone, and the larger magnitude wins, with ties going to the brake.
  - Two steering half-axes become one steer value, with the left half taking precedence.
  - `DonkeyLink` reuses these functions, since WebsocketTest.cs repeats the same code.
- `LogiG27` (LogiG27Translate.cs) — the same pedal arbitration for the G27 pedals, plus a deadzoned wheel axis.
- `MozaPedals` (MozaTest.cs) — gas minus brake with per-pedal invert flags, clamped, plus a cached previous throttle.
- `ClickControl` (ClickControll.cs) — a mouse-drag state machine for two values.
  - Press, release and drag each have their own branch.
  - Without a button event, both values auto-centre through `MoveTowards`.
- `TwoCubeControl` (TwoCubeController.cs) — two cubes whose heights stand for two values.
  - A cube being dragged follows the vertical mouse axis.
  - A released cube drifts back to value 0 and is placed at the height of its value.
- `PadInput` (InputTranslate.cs) — the gamepad reader.
  - Throttle is R2 minus L2, and steer is the left stick's x axis.
  - Each axis has its own cached previous value.
- `TwoCubeReading` (TwoCubeReader.cs) — maps the two cube values onto [0,1].
  - The last reported pair is refreshed, both values together, only when a mapped value moves by more than a threshold.
- `UnityMathf` — the `Mathf` functions the scripts call, with Unity's documented semantics over reals: `Abs`, `Clamp`, `InverseLerp`, `Lerp`, `MoveTowards` and `Approximately`. It also holds the helpers those are defined with: `Clamp01`, `Max` and `Sign`.
- `InputRules` — rules that several scripts share: the two deadzone forms, the strict-magnitude pick, the pedal arbitration and the change tracking behind `Approximately`.

When a script keeps state between frames, its module has a class with the
script's fields. Its methods change those fields in place. Each method's
`ensures` ties the new state to a pure step function of the old state. The
lemmas state the script's promises about those step functions: bounds,
precedence, exact zeros, no overshoot, and which fields a frame leaves alone.
Run lemmas cover whole sessions of frames.

Device reads, key-down flags, mouse button state, the mouse position, the
object under the mouse and `Time.deltaTime` are parameters of each frame.
Input System action lookups become a record of which actions resolved
(`MozaBindings`), and `Gamepad.current` becomes an `Option`.

In `TwoCubeControl`, cube heights are kept in units of `maxDistance`. A
world height h is stored as h / maxDistance, so the cube range
[0, 2*maxDistance] becomes [0, 2]. The lemmas `DragInWorldUnits`,
`ValueInWorldUnits` and `HeightInWorldUnits` prove that the script's
world-unit formulas are exactly the stored ones scaled by `maxDistance`.

## Model

| member | source | states |
|---|---|---|
| UnityMathf.Abs | Assets/Scripts/MozaInputTranslate.cs:91-92 | Mathf.Abs: the magnitude is non-negative and is the value or its negation |
| UnityMathf.Max | Assets/Scripts/MozaTest.cs:41 | Mathf.Max, used by Approximately: the result is one of its arguments and at least both |
| UnityMathf.Sign | Assets/Scripts/ClickControll.cs:86-87 | Mathf.Sign, used by MoveTowards: 1 exactly for zero and positive numbers, otherwise -1 |
| UnityMathf.Clamp | Assets/Scripts/WebsocketTest.cs:124 | the result lies in [min,max]; a value inside is kept; below min gives min; above max gives max |
| UnityMathf.Clamp01 | Assets/Scripts/TwoCubeController.cs:110 | Clamp to [0,1]: the result lies in [0,1] and the ends are exact |
| UnityMathf.InverseLerp | Assets/Scripts/MozaInputTranslate.cs:85 | the result lies in [0,1]; value a gives 0; value b gives 1; an empty interval gives 0 |
| UnityMathf.Lerp | Assets/Scripts/TwoCubeController.cs:110 | the result stays between a and b, in either order; t <= 0 gives a; t >= 1 gives b |
| UnityMathf.MoveTowards | Assets/Scripts/ClickControll.cs:86-87 | within reach it lands on the target; otherwise it moves by at most maxDelta, never past the target |
| UnityMathf.MoveTowardsZero | Assets/Scripts/TwoCubeController.cs:118 | a step towards 0 shrinks the distance to 0 by exactly the step, down to 0 |
| UnityMathf.ApproximatelyFacts | Assets/Scripts/MozaTest.cs:41 | equal values are approximately equal; the relation is symmetric; its tolerance is bounded |
| InputRules.ZeroBelowDeadzone | Assets/Scripts/MozaInputTranslate.cs:91-92 | a magnitude strictly below the deadzone gives exactly 0; anything else passes unchanged |
| InputRules.PassAboveDeadzone | Assets/Scripts/MozaTest.cs:52 | only a magnitude strictly above the deadzone passes; exactly the deadzone gives 0 |
| InputRules.LargerMagnitude | Assets/Scripts/MozaInputTranslate.cs:95 | the result's magnitude is the larger one; the first value wins only when strictly larger, so ties go to the second |
| InputRules.PedalArbitration | Assets/Scripts/LogiG27Translate.cs:54-61 | result in [-1,1] with magnitude max of both deadzoned pedals; a positive result is the forward pedal, a negative one the reverse pedal; ties give the reverse pedal; both inside the deadzone give 0 |
| InputRules.Track | Assets/Scripts/MozaTest.cs:41-46 | the cached value changes only when the new value is not approximately the old one, and then to the new value |
| InputRules.TrackIdempotent | Assets/Scripts/InputTranslate.cs:64-72 | tracking the same value twice changes nothing the second time |
| MozaInput.RxMapped | Assets/Scripts/MozaInputTranslate.cs:84-85 | RX maps into [0,1]: released (-1) gives 0, pressed (+1) gives 1, (rx+1)/2 in between |
| MozaInput.RyMapped | Assets/Scripts/MozaInputTranslate.cs:87-88 | RY maps into [-1,0]: released (+1) gives 0, pressed (-1) gives -1, (ry-1)/2 in between |
| MozaInput.Throttle | Assets/Scripts/MozaInputTranslate.cs:79-96 | throttle in [-1,1] with magnitude max of both deadzoned pedals; RX wins only when strictly larger; ties, including both zero, go to RY; both inside the deadzone give exactly 0 |
| MozaInput.Steer | Assets/Scripts/MozaInputTranslate.cs:100-120 | an active left half (> dz) gives leftRaw - 1; else an active right half (< -dz) gives InverseLerp(-1,0,r) = r + 1; else exactly 0 |
| MozaInput.SteerNormalized | Assets/Scripts/MozaInputTranslate.cs:102-120 | half-axes in range give steer in [-1,1]: the left half steers into [-1,0], the right half into [0,1] |
| MozaInput.SteerBounded | Assets/Scripts/MozaInputTranslate.cs:100-120 | with a non-negative deadzone the steer value lies in [-1,1] whenever the left half-axis is at most 1, whatever the right half reads |
| MozaInput.LeftAtRestMasksRight | Assets/Scripts/MozaInputTranslate.cs:108-112 | a left half-axis at +1 counts as active, so steer is 0 whatever the right half reads |
| MozaInput.MozaInputTranslate.constructor | Assets/Scripts/MozaInputTranslate.cs:16-27 | the action lookups and the deadzone are fixed; throttle and steer start at 0 |
| MozaInput.MozaInputTranslate.ProcessThrottleInputs | Assets/Scripts/MozaInputTranslate.cs:79-96 | stores Throttle of the two raw pedal readings, which lies in [-1,1] |
| MozaInput.MozaInputTranslate.ProcessSteerInputs | Assets/Scripts/MozaInputTranslate.cs:100-120 | stores Steer of the two raw half-axis readings |
| MozaInput.MozaInputTranslate.Update | Assets/Scripts/MozaInputTranslate.cs:71-77 | with any action unresolved nothing changes; otherwise both values are recomputed |
| DonkeyLink.Frame | Assets/Scripts/WebsocketTest.cs:151-157 | a frame carries the current angle and throttle, mode "user" and recording off |
| DonkeyLink.StepThrottle | Assets/Scripts/WebsocketTest.cs:122-131 | Up adds a step, then Down subtracts one, each clamped to [-1,1]; without Up or Down the throttle is kept |
| DonkeyLink.StepAngle | Assets/Scripts/WebsocketTest.cs:132-141 | Left subtracts a step, then Right adds one, each clamped to [-1,1]; without Left or Right the angle is kept |
| DonkeyLink.KeyboardSendsOnAnyKey | Assets/Scripts/WebsocketTest.cs:118-147 | exactly one frame with the new values is sent iff some arrow key went down, even when clamping left the values as they were; each key pair touches only its axis; normalized values stay normalized |
| DonkeyLink.UpDownAtTopDoesNotCancel | Assets/Scripts/WebsocketTest.cs:122-131 | at throttle 1 pressing Up and Down together gives 1 - step, because Up is clamped away |
| DonkeyLink.WheelSendRule | Assets/Scripts/WebsocketTest.cs:79-116 | with an action unresolved nothing changes and nothing is sent; otherwise one frame is sent iff either new magnitude exceeds the deadzone |
| DonkeyLink.WheelOverridesKeyboard | Assets/Scripts/WebsocketTest.cs:73-116 | with all actions resolved the state after a frame depends only on the wheel reading: the wheel overwrites the keyboard's work |
| DonkeyLink.UpdateFramesAreUserFrames | Assets/Scripts/WebsocketTest.cs:73-77 | a frame sends at most two records, each in mode "user" with recording off |
| DonkeyLink.KeyFrames | Assets/Scripts/WebsocketTest.cs:143-146 | counts the frames of a session in which some arrow key went down: at most the session length, 0 when no key ever goes down, the full length when one goes down in every frame |
| DonkeyLink.RunSendsNormalizedFrames | Assets/Scripts/WebsocketTest.cs:73-146 | over a whole session whose left steering half-axis never reads above 1 (any other readings), every record sent carries a throttle and an angle in [-1,1], and the values stay there |
| DonkeyLink.UnboundRunSendsPerKeyFrame | Assets/Scripts/WebsocketTest.cs:79-147 | with the wheel unbound, a session sends exactly one record per key-down frame |
| DonkeyLink.WebsocketTest.constructor | Assets/Scripts/WebsocketTest.cs:17-25 | both values start at 0, mode is "user", recording is off, and nothing has been sent |
| DonkeyLink.WebsocketTest.SendControlSignal | Assets/Scripts/WebsocketTest.cs:149-163 | appends the current state's frame to the frames sent |
| DonkeyLink.WebsocketTest.HandleKeyboardInput | Assets/Scripts/WebsocketTest.cs:118-147 | the new state and the frames sent are those of the keyboard step |
| DonkeyLink.WebsocketTest.HandleMozaInput | Assets/Scripts/WebsocketTest.cs:79-116 | the new state and the frames sent are those of the wheel step |
| DonkeyLink.WebsocketTest.Update | Assets/Scripts/WebsocketTest.cs:73-77 | keyboard then wheel; mode and recording never change, and neither do they in any frame sent |
| LogiG27.AcceleratorMapped | Assets/Scripts/LogiG27Translate.cs:48-49 | maps into [0,1]: released (1) gives 0, fully pressed (-1) gives 1 |
| LogiG27.BrakeMapped | Assets/Scripts/LogiG27Translate.cs:51-52 | maps into [-1,0]: released (-1) gives 0, fully pressed (1) gives -1 |
| LogiG27.Throttle | Assets/Scripts/LogiG27Translate.cs:40-62 | throttle in [-1,1] with magnitude max of both deadzoned pedals; ties go to the brake; both released gives 0 |
| LogiG27.Steer | Assets/Scripts/LogiG27Translate.cs:64-79 | 0 strictly inside the deadzone; otherwise exactly the raw axis, including at the deadzone itself |
| LogiG27.PedalExtremes | Assets/Scripts/LogiG27Translate.cs:40-62 | only the accelerator floored gives 1; only the brake floored gives -1; both floored gives -1 |
| LogiG27.LogiG27Translate.constructor | Assets/Scripts/LogiG27Translate.cs:17-22 | the deadzone is fixed; throttle and steer start at 0 |
| LogiG27.LogiG27Translate.ProcessThrottleInputs | Assets/Scripts/LogiG27Translate.cs:40-62 | stores Throttle of the two pedal readings |
| LogiG27.LogiG27Translate.ProcessSteerInputs | Assets/Scripts/LogiG27Translate.cs:64-79 | stores Steer of the wheel reading |
| LogiG27.LogiG27Translate.Update | Assets/Scripts/LogiG27Translate.cs:33-38 | recomputes both values; the throttle lies in [-1,1] |
| MozaPedals.PedalContribution | Assets/Scripts/MozaTest.cs:51-57 | a pedal counts only strictly above the deadzone, and is then negated when its invert flag is set |
| MozaPedals.PedalThrottle | Assets/Scripts/MozaTest.cs:49-65 | gas minus brake clamped to [-1,1]; both pedals inside the deadzone give 0 |
| MozaPedals.InvertFlagsAreIndependent | Assets/Scripts/MozaTest.cs:51-57 | the gas flag negates only the gas share; with the brake released it mirrors the throttle, and the brake flag then changes nothing |
| MozaPedals.MozaTest.constructor | Assets/Scripts/MozaTest.cs:14-20 | the deadzone and both invert flags are fixed; throttle and previous throttle start at 0 |
| MozaPedals.MozaTest.Start | Assets/Scripts/MozaTest.cs:25-29 | the previous throttle is reset to 0 |
| MozaPedals.MozaTest.ProcessPedalInputs | Assets/Scripts/MozaTest.cs:49-65 | stores PedalThrottle of the two pedal readings |
| MozaPedals.MozaTest.Update | Assets/Scripts/MozaTest.cs:31-47 | recomputes the throttle; the previous throttle follows it only on a change |
| ClickControl.PressStartsOneDrag | Assets/Scripts/ClickControll.cs:46-60 | a press sets at most one drag flag, with the throttle cube first, and clears none; any hit records the mouse; values do not move |
| ClickControl.ReleaseEndsDrags | Assets/Scripts/ClickControll.cs:62-66 | a release without a press clears both flags and nothing else |
| ClickControl.HeldFrameMovesDraggedValueOnly | Assets/Scripts/ClickControll.cs:68-82 | a held throttle drag moves only the throttle by dy*sensitivity, clamped; otherwise a steer drag moves only steer by dx*sensitivity; the mouse position is recorded |
| ClickControl.AutoCentreNeverOvershoots | Assets/Scripts/ClickControll.cs:62-88 | in a button frame a value moves only while dragged (steer only when throttle is not dragged); without a button event each value moves towards 0 by at most deltaTime, never changes sign, and lands on 0 when within reach |
| ClickControl.MouseStepKeepsNormalized | Assets/Scripts/ClickControll.cs:40-89 | every kind of frame keeps both values in [-1,1] |
| ClickControl.MouseRunKeepsNormalized | Assets/Scripts/ClickControll.cs:40-89 | both values stay in [-1,1] across a whole session |
| ClickControl.IdleRunCentres | Assets/Scripts/ClickControll.cs:84-88 | over idle frames each value moves towards 0 by at most the total time and never changes sign |
| ClickControl.ClickInputTranslate.constructor | Assets/Scripts/ClickControll.cs:19-24 | flags clear and both values 0 |
| ClickControl.ClickInputTranslate.HandleMouseInput | Assets/Scripts/ClickControll.cs:40-89 | the new state is the mouse step of the old one, and normalized values stay normalized |
| ClickControl.ClickInputTranslate.Update | Assets/Scripts/ClickControll.cs:34-38 | one frame is one mouse step |
| TwoCubeControl.DraggedHeight | Assets/Scripts/TwoCubeController.cs:100-104 | the dragged height lies in the cube range; inside it the cube moves by exactly the drag, and it clamps at both ends |
| TwoCubeControl.ValueAtHeight | Assets/Scripts/TwoCubeController.cs:110 | a height reads as a value in [-1,1]: the bottom is -1, the top is +1, linearly in between |
| TwoCubeControl.ValueAtHeightIsLerp | Assets/Scripts/TwoCubeController.cs:110 | the value is Lerp(-1, 1, height / range) |
| TwoCubeControl.HeightForValue | Assets/Scripts/TwoCubeController.cs:116-139 | a value is placed in the cube range: -1 at the bottom, +1 at the top, linearly in between |
| TwoCubeControl.HeightForValueIsLerp | Assets/Scripts/TwoCubeController.cs:116-139 | the height is Lerp(0, range, (v+1)/2) |
| TwoCubeControl.HeightValueRoundTrip | Assets/Scripts/TwoCubeController.cs:110-123 | on their ranges the value-for-height and height-for-value maps undo each other, in both directions |
| TwoCubeControl.DragInWorldUnits | Assets/Scripts/TwoCubeController.cs:100-104 | the world-unit drag and clamp equal maxDistance times the stored drag |
| TwoCubeControl.ValueInWorldUnits | Assets/Scripts/TwoCubeController.cs:110 | the world-unit value formula gives the same value as the stored height |
| TwoCubeControl.HeightInWorldUnits | Assets/Scripts/TwoCubeController.cs:116-139 | the world-unit placement equals maxDistance times the stored height |
| TwoCubeControl.WorldRoundTrip | Assets/Scripts/TwoCubeController.cs:110-123 | for maxDistance > 0 and a value in [-1, 1], placing a cube by the world-unit height formula and reading it back by the world-unit value formula gives the value back |
| TwoCubeControl.MoveCubeStep | Assets/Scripts/TwoCubeController.cs:95-111 | without a cube nothing moves; otherwise the cube takes the dragged height in range, and its value is the one that height stands for |
| TwoCubeControl.PressAndReleaseFlags | Assets/Scripts/TwoCubeController.cs:57-77 | a press on an assigned cube starts its drag, the left cube first, and clears none; a release clears both; values and heights are untouched |
| TwoCubeControl.DragMovesOneCube | Assets/Scripts/TwoCubeController.cs:79-92 | while held, a left drag wins and the other cube stays put; without the button held no value or height changes |
| TwoCubeControl.HeldDragFollowsMouse | Assets/Scripts/TwoCubeController.cs:80-91 | a held drag on an assigned cube moves it by the mouse travel, clamped, and sets its value from the new height |
| TwoCubeControl.UndraggedCubeCentres | Assets/Scripts/TwoCubeController.cs:113-141 | a cube not being dragged moves towards 0 by at most deltaTime without overshooting and is placed at its value's height; a dragged cube is left alone |
| TwoCubeControl.FrameKeepsInvariant | Assets/Scripts/TwoCubeController.cs:46-50 | a frame keeps both values in [-1,1] and keeps every assigned cube at the height of its value |
| TwoCubeControl.StartStep | Assets/Scripts/TwoCubeController.cs:26-44 | each assigned cube is raised to height maxDistance and given value 1; an unassigned cube and both drag flags are left as they were |
| TwoCubeControl.StartHeightReadsAsCentre | Assets/Scripts/TwoCubeController.cs:26-44 | after Start each cube's height reads as 0 while its value is 1; the first frame without a drag restores the agreement |
| TwoCubeControl.IdleFrameIsDecay | Assets/Scripts/TwoCubeController.cs:46-93 | a frame without press, release or hold changes nothing in HandleInput, so the whole frame is the UpdateValues decay alone |
| TwoCubeControl.IdleRunCentres | Assets/Scripts/TwoCubeController.cs:113-141 | after idle frames whose times add up to both distances from 0, both values are exactly 0 and assigned cubes stand at the centre |
| TwoCubeControl.TwoCubeController.constructor | Assets/Scripts/TwoCubeController.cs:13-20 | flags clear, values 0, cubes at the scene heights |
| TwoCubeControl.TwoCubeController.Start | Assets/Scripts/TwoCubeController.cs:26-44 | the new state is the start step of the old one |
| TwoCubeControl.TwoCubeController.MoveCube | Assets/Scripts/TwoCubeController.cs:95-111 | returns the move step: unchanged without a cube; otherwise the height lies in range and the value stands for it |
| TwoCubeControl.TwoCubeController.HandleInput | Assets/Scripts/TwoCubeController.cs:52-93 | the new state is the input step of the old one, with mouse travel = axis * moveSpeed * deltaTime |
| TwoCubeControl.TwoCubeController.UpdateValues | Assets/Scripts/TwoCubeController.cs:113-141 | the new state is the decay step of the old one |
| TwoCubeControl.TwoCubeController.Update | Assets/Scripts/TwoCubeController.cs:46-50 | one frame: input then decay; values stay in [-1,1] and heights keep agreeing with values |
| PadInput.TriggerThrottle | Assets/Scripts/InputTranslate.cs:52-57 | R2 minus L2, in [-1,1] when both triggers are in [0,1]; without a gamepad 0 |
| PadInput.StickSteer | Assets/Scripts/InputTranslate.cs:61 | the left stick's x value; without a gamepad 0 |
| PadInput.StartStep | Assets/Scripts/InputTranslate.cs:37-44 | both previous values become 0 and the current values are kept |
| PadInput.PadStepTracksEachAxis | Assets/Scripts/InputTranslate.cs:49-84 | a previous value stays iff its axis is approximately unchanged, and otherwise becomes the new value |
| PadInput.AxesTrackedIndependently | Assets/Scripts/InputTranslate.cs:64-83 | each axis's previous value after a frame depends only on that axis |
| PadInput.NoGamepadReadsCentre | Assets/Scripts/InputTranslate.cs:52-61 | without a gamepad both axes read 0, and a second such frame changes nothing |
| PadInput.RepeatedFrameIsStable | Assets/Scripts/InputTranslate.cs:64-83 | a second identical frame leaves the state as it is |
| PadInput.InputTranslate.constructor | Assets/Scripts/InputTranslate.cs:24-27 | all four values start at 0 |
| PadInput.InputTranslate.Start | Assets/Scripts/InputTranslate.cs:37-44 | the new state is the start step of the old one |
| PadInput.InputTranslate.Update | Assets/Scripts/InputTranslate.cs:49-84 | the new state is the pad step of the old one |
| TwoCubeReading.MappedValue | Assets/Scripts/TwoCubeReader.cs:32-34 | a cube value maps into [0,1], as (raw+1)/2 on [-1,1] and clamped outside |
| TwoCubeReading.MappedLandmarks | Assets/Scripts/TwoCubeReader.cs:32-34 | -1 maps to 0, 0 maps to 0.5, 1 maps to 1 |
| TwoCubeReading.MappedMonotonic | Assets/Scripts/TwoCubeReader.cs:32-34 | larger cube values never map lower |
| TwoCubeReading.StartStep | Assets/Scripts/TwoCubeReader.cs:22-24 | the last values become the raw, unmapped cube values |
| TwoCubeReading.StepResetsBothOrNeither | Assets/Scripts/TwoCubeReader.cs:27-46 | mapped values are always refreshed; both last values are replaced together iff either moved past the threshold |
| TwoCubeReading.LastValuesChangeOnlyPastThreshold | Assets/Scripts/TwoCubeReader.cs:37-38 | if neither mapped value moved past the threshold, both last values are kept |
| TwoCubeReading.LastValuesTrailWithinThreshold | Assets/Scripts/TwoCubeReader.cs:37-45 | after any frame each last value is within the threshold of its mapped value, and equal to it at threshold 0 |
| TwoCubeReading.RepeatedFrameIsStable | Assets/Scripts/TwoCubeReader.cs:27-46 | with a non-negative threshold a second identical frame changes nothing |
| TwoCubeReading.StartValueMatchesMappedOnlyAtTop | Assets/Scripts/TwoCubeReader.cs:22-34 | on [-1,1] the raw value stored at Start equals its mapped value only at 1 |
| TwoCubeReading.CentredStartIsReportedAtOnce | Assets/Scripts/TwoCubeReader.cs:22-45 | cubes at rest at 0 after Start are reported on the first frame when the threshold is below 0.5 |
| TwoCubeReading.TwoCubeReader.constructor | Assets/Scripts/TwoCubeReader.cs:5-11 | enabled, with all four values 0 |
| TwoCubeReading.TwoCubeReader.Start | Assets/Scripts/TwoCubeReader.cs:13-25 | without a controller the component disables itself; otherwise it is the start step |
| TwoCubeReading.TwoCubeReader.Update | Assets/Scripts/TwoCubeReader.cs:27-46 | a disabled component is not updated; an enabled one takes the reader step |

## Left out

- WebSocket plumbing is not modelled: the connection, its event handlers, `ws.Send` as network I/O, and `OnDestroy`. A send is the append of the record to `sent`.
- The JSON text of a frame is left out, because it comes from a foreign serialiser with unspecified float formatting. The frame is kept as a record.
- DonkeyCarWebSocket.cs and NISTestMoza.cs are not part of this model.
- Visuals and text are not modelled: the `Update*Visuals` methods, cube position writes for display, TextMeshPro text and `Debug.Log` are presentation only.
- `Camera.main.ScreenPointToRay` and `Physics.Raycast` are replaced by a parameter naming the object under the mouse. A missing cube can never be the hit object.
- Input System lookups (`FindActionMap`, `FindAction`, `ReadValue`, `Input.GetAxis`, `Gamepad.current`) become parameters, and action resolution becomes `MozaBindings`.
- Unity frame dispatch is not modelled. The order Awake, OnEnable, Start, Update is the caller's business. A disabled component simply gets no frames.
- GetMouseButtonDown, GetMouseButtonUp and GetMouseButton are independent booleans, so frames Unity never produces are also covered.
- Reconnect logic does not exist in these scripts, and none is modelled.
- IEEE single-precision rounding is not modelled: all values are mathematical reals.
- UnityMathf.Approximately: `Mathf.Epsilon` is fixed to the smallest positive denormal single-precision float. Unity uses a different value on platforms that flush denormals to zero.
- TwoCubeControl: heights are stored divided by `maxDistance`, so a setup with `maxDistance <= 0` is not modelled. There the script divides by zero or turns its clamp range around. The world-unit lemmas require `maxDistance > 0`.
- TwoCubeControl: only the heights of the cubes are kept. Their x and z coordinates never change in these scripts.
- MozaInput: the debug-logging branch of ProcessSteerInputs is left out. It only logs.
- The public accessors (`GetThrottleValue`, `GetMappedLeftValue`, `GetMappedRightValue`, `leftValue`, `rightValue` and the `throttleValue`/`steerValue` properties) are plain field reads, so they are not modelled. A caller reads the class field directly.
- `Start` of MozaInputTranslate.cs, LogiG27Translate.cs and ClickControll.cs is not modelled. Each only records cube positions for display, and the one in LogiG27Translate.cs also sets the controller label text. `OnEnable` and `OnDisable` of MozaInputTranslate.cs are not modelled either, because they only enable or disable the action map.
