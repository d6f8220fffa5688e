# FocusRail controller and display drivers, modelled in Dafny

This project models the firmware of an ESP32 focus-stacking rail in Dafny and
proves properties of the model. It covers three parts.

- **The macro-rail controller** (`src/main.c`). It owns the menu globals and
  three records: the rail axis, the stack plan and the system settings. The
  rotary encoder's interrupts set a counter and a press flag. `menu_task`
  polls them and calls the rotation and press handlers. The handlers edit the
  records with clamps, move the rail (with backlash take-up on a reversal),
  home it, and start or stop an automatic focus stack. `auto_stack_task` takes
  the shots, moving one step between them.
- **The focus-rail variant** (`src/menu.c`, `src/encoder.c`,
  `src/stepper.c`). The encoder ISR posts events to a ten-entry queue. The
  encoder task hands them to a four-screen menu. The menu drives a stepper
  through two optional callbacks.
- **The geometry of the two ST7735 display drivers** (`src/st7735_lcd.c`
  and `src/display.c`): which pixels each drawing call sends to the panel, in
  which windows and in how many SPI transactions. This covers the shared
  5-column bitmap font, Bresenham lines, clipped rectangles, text layout with
  wrapping, and scaled glyphs.

Each state-changing part of the code is a Dafny class whose fields are the C
globals.

- **Rail controller.** `RailController.Controller` methods each promise
  `State() == AfterX(old(State()), ...)`. `AfterX` is a step function on the
  `RailModel.Snapshot` value. The lemmas in `RailModel` and `RailPlan` state
  what the handlers guarantee across calls.
- **Focus variant.** `FocusMenu.Menu` is proved against the functions
  `MainInput`, `MoveInput`, `SettingsInput`, `AutoStackInput` and
  `AfterInput`. `FocusEncoder.Encoder.Drain` is proved against `AfterInputs`.
- **Display drivers.** The classes keep a ghost log of the transfers sent to
  the panel: a command byte, a data transaction, or an address window. Each
  drawing method is proved to append a value of the pure model:
  - `Plot(LinePoints(...))`;
  - `BulkWrite(...)`;
  - `TextWrites(TextLayout(...))`;
  - `Wire(CharDots(...))`;
  - `Wire(StringDots(StringLayout(...)))`.

  Lemmas about these values give the geometric guarantees:
  - a line is connected and ends at its endpoints;
  - every pixel is clipped to the screen;
  - a glyph stays in its cell and paints exactly its set bits;
  - a bulk write carries every pixel exactly once.

Modules:
- `common.dfy` (`CArith`): C arithmetic, such as truncating casts and 32-bit tick subtraction.
- `rail_plan.dfy` (`RailPlan`): records, shot planning, axis moves, navigation and edits.
- `rail_model.dfy` (`RailModel`): controller snapshot, handler step functions and cross-call lemmas.
- `rail_controller.dfy` (`RailController`): the controller class.
- `focus_menu.dfy`, `focus_encoder.dfy`, `focus_stepper.dfy`: the focus variant.
- `font.dfy` (`Font`): the font table.
- `pixel_bus.dfy` (`PixelBus`): pixel bytes and transaction splitting.
- `line_walk.dfy` (`LineWalk`): the Bresenham walk.
- `st7735.dfy` (`St7735`): the `st7735_*` driver.
- `tft_display.dfy` (`TftDisplay`): the `display_*` driver.

## Model

| member | source | states |
|---|---|---|
| CArith.TruncBounds | src/main.c:770 | The `(int)` cast of a float truncates toward zero: the result lies within one of the value, on the zero side, with its sign. |
| CArith.TruncNeg | src/main.c:770 | Truncation is odd, so a negated distance requests the negated step count. |
| CArith.Elapsed | src/main.c:709 | `uint32_t` tick subtraction: the plain difference when no wrap occurred, otherwise the difference plus 2^32. |
| CArith.CDiv | src/main.c:395 | C integer division: equals Euclidean division for non-negative operands and is non-negative when the dividend is zero or has the sign of the divisor. |
| CArith.CDivBounds | src/main.c:377 | For a positive divisor, C's quotient brackets the dividend: q * b <= a < (q + 1) * b when a >= 0, and (q - 1) * b < a <= q * b when a <= 0. |
| CArith.CMod | src/main.c:398 | C remainder: dividend = quotient * divisor + remainder, with the truncating quotient. |
| CArith.ClampInt | src/main.c:449-453 | Clamp to [lo, hi]: the result is in range, equals the input when in range, and otherwise equals the bound crossed. |
| CArith.FloorAt | src/main.c:434-437 | A floor-only clamp: at least `lo`, unchanged when already at least `lo`. |
| CArith.FloorAtReal | src/main.c:491-498 | The same floor for float fields. |
| RailPlan.TotalShots | src/main.c:1016-1025 | The shot count is never negative, and is zero exactly when the distance is zero or the step is not positive. |
| RailPlan.TotalShotsCoversRange | src/main.c:1016-1025 | A nonzero count n satisfies (n-1) steps <= distance < n steps, so the shots cover the range. |
| RailPlan.Recalculated | src/main.c:1016-1025 | calculate_stack_shots changes only `total_shots`, and sets it to TotalShots of the plan. |
| RailPlan.RecalculateIdempotent | src/main.c:1016-1025 | Recalculating twice gives the same plan as once. |
| RailPlan.DefaultPlanShots | src/main.c:26-35 | The boot plan (0 to 10 mm in 50 um steps) holds 201 shots. |
| RailPlan.ClampPosition | src/main.c:772-780 | The position after a move is raised to 0 and then lowered to max travel. It lies in [0, max_travel] and is unchanged when already inside. |
| RailPlan.RailAfterMove | src/main.c:759-781 | A refused move (not homed, nonzero distance) changes nothing. Otherwise `total_steps` grows by the truncated request and the position is the clamped sum. Calibration and `homed` are kept. |
| RailPlan.BacklashSteps | src/main.c:796-800 | The backlash loop issues the truncated product backlash * steps_per_mm / 1000 pulses, and none when it is not positive. |
| RailPlan.PulsesForSteps | src/main.c:784-816 | No pulses for 0 steps; \|steps\| pulses when there was no earlier request or the direction is the same; \|steps\| plus the backlash on a reversal. |
| RailPlan.BacklashOnReversalExample | src/main.c:792-818 | With 25 um of backlash at 1600 steps/mm, +100 then -50 steps issue 100 and then 40 + 50 pulses, while `total_steps` ends at +50. |
| RailPlan.SubStepMoveOnlyShiftsPosition | src/main.c:770-772 | A homed move shorter than one step issues no pulse and keeps `total_steps`, yet shifts the logical position by the full distance. |
| RailPlan.StepsMoved | src/main.c:784-822 | move_rail_steps adds `steps` to `total_steps`, issues PulsesForSteps pulses, and records the new direction (kept for 0 steps). |
| RailPlan.RailMoved | src/main.c:759-781 | move_rail on the axis: the rail record follows RailAfterMove; a refused move changes nothing; the direction stays in {-1, 0, 1}. |
| RailPlan.PermittedMoveAccounting | src/main.c:770-818 | A permitted move changes `total_steps` by exactly the request. Pulses are \|request\| plus the backlash only on a reversal. The position stays in [0, max_travel]. |
| RailPlan.DriveAfterMovesKeeps | src/main.c:948-964 | Repeated equal moves keep calibration and `homed`, keep the position in [0, max_travel], and never lose pulses. On an unhomed rail they change nothing. |
| RailPlan.AdvancedIsProduct | src/main.c:948-964 | m additions of the step equal start + m * step. |
| RailPlan.DriveAfterMovesAdvance | src/main.c:948-964 | With non-negative steps and no clamping, the position after m sequencer moves is start + m * step. |
| RailPlan.OneMoreStep | src/main.c:955-956 | An unclamped forward move advances the position by exactly the step. |
| RailPlan.ItemCount | src/main.c:515-541 | Every screen has 1 to 8 items. |
| RailPlan.NextSelection | src/main.c:543-545 | Navigation without modulo: below 0 goes to the last item, past the end goes to 0, otherwise selection + delta. The result is always in range. |
| RailPlan.ActionFor | src/main.c:567-679 | Only MAIN items 0..4 (to their screens), ADVANCED and CALIBRATION item 6 (to MAIN) open a screen. A press on STACK_PROGRESS is exactly a stop. Test moves are 1 mm or 10 mm on CALIBRATION. |
| RailPlan.ToggleEditMatchesEditRules | src/main.c:412-503 | A press toggles edit mode exactly on the items that rotation edits. Editing any other item leaves its record unchanged. |
| RailPlan.EditStack | src/main.c:420-443 | AUTO_STACK edits change only the selected field, then the shot count is recomputed. Start and end move by d * 0.1 mm. The step moves by d * 5 um and is raised to 1 um when below. The delay moves by d * 100 ms and is raised to 100 ms when below. Other items only recompute. The plan stays valid. |
| RailPlan.EditSettings | src/main.c:445-480 | SETTINGS edits change only the selected field. Brightness moves by 5 * d, clamped to 10..100. Trigger time moves by 10 * d with floor 50. Settling moves by 50 * d with floor 100. Backlash moves by 5 * d with floor 0. Sensitivity moves by d, clamped to 1..10. Beep, save and other items change nothing. |
| RailPlan.EditCalibration | src/main.c:482-503 | CALIBRATION edits change only the selected field. Steps/mm moves by 10 * d with floor 100. Travel moves by d mm with floor 10. Step size moves by 0.1 * d um with floor 0.1. Other items change nothing. |
| RailPlan.ShotStep | src/main.c:937-946 | The per-shot move has the step's magnitude. It points toward the end position unless `reverse_direction` is set. |
| RailPlan.ShotsRun | src/main.c:948-964 | Shots taken: all of the plan without a stop, and min(stop point, total) with one. Never more than the plan. |
| RailPlan.MovesBetween | src/main.c:954-960 | No move after the last shot: n shots of a completed plan need n-1 moves, and n moves otherwise. |
| RailPlan.ProgressWidth | src/main.c:377 | The bar width is the percentage of shots taken, rounded down: w * total <= taken * 100 < (w + 1) * total. It is 0..100 while the count is in range, 100 at completion and 0 at the start. |
| RailPlan.EtaSeconds | src/main.c:394-395 | The ETA is the remaining wait (remaining shots times the delay) in whole seconds, truncated toward zero: t * 1000 <= wait < (t + 1) * 1000 when the wait is not negative. It is zero when the stack is done. |
| RailPlan.EtaText | src/main.c:398 | The "m:ss" parts recombine to the ETA, with seconds in 0..59 for a non-negative ETA. |
| RailModel.MoveKeepsConsistent | src/main.c:759-822 | A move keeps every range invariant and the `homed` flag. |
| RailModel.StartKeepsConsistent | src/main.c:867-933 | start_auto_stack keeps the invariants. A running stack always has a homed rail. |
| RailModel.PressKeepsConsistent | src/main.c:552-683 | Every press keeps the ranges, the position floor and the homed-while-running rule. |
| RailModel.ActionKeepsConsistent | src/main.c:567-679 | Each screen's press action keeps the invariants. |
| RailModel.RotationKeepsConsistent | src/main.c:406-549 | Every rotation keeps the invariants and the `homed` flag. Outside edit mode the selection stays in range. |
| RailModel.RotationKeepsHomed | src/main.c:406-549 | No rotation, editing or navigating, changes whether the rail is homed. |
| RailModel.MoveKeepsHomed | src/main.c:759-822 | A move, permitted or refused, leaves the `homed` flag as it was. |
| RailModel.PressHomesOnlyByHoming | src/main.c:597-599 | An accepted press with no stack running homes the rail, at position 0 with no steps, exactly when HOME RAIL is selected; no other press makes an unhomed rail homed. |
| RailModel.HomedOnlyByHoming | src/main.c:841-864 | In one menu_task pass, as written and with the flag cleared first, an unhomed rail becomes homed only through a pending, accepted press on HOME RAIL, and then sits at position 0 with no steps counted. |
| RailModel.PressKeepsProgressShots | src/main.c:877-884 | A press keeps STACK_PROGRESS to plans with shots: entering it needs a start, which refuses a plan with no shots. |
| RailModel.RotationKeepsProgressShots | src/main.c:406-549 | A rotation keeps STACK_PROGRESS to plans with shots. |
| RailModel.IterationKeepsProgressShots | src/main.c:377 | Every menu_task pass, in either press order, keeps STACK_PROGRESS to plans with shots, so the progress bar's division by total_shots always has a nonzero divisor. |
| RailModel.EditKeepsConsistent | src/main.c:410-503 | Edit-mode rotation keeps the invariants. |
| RailModel.MoveTouchesOnlyAxis | src/main.c:759-781 | A move changes only the axis, the warnings and the redraw request. |
| RailModel.StartKeepsInputs | src/main.c:867-933 | start_auto_stack never sets the press flag, the counter or the drawn screens. |
| RailModel.ActionKeepsInputs | src/main.c:567-679 | No press action sets the press flag, the counter or the drawn screens. |
| RailModel.PressKeepsInputs | src/main.c:552-683 | The press handler never raises the press flag, and leaves the counter and drawn screens alone. |
| RailModel.RotationKeepsInputs | src/main.c:406-549 | The rotation handler leaves the counter, the press flag and the drawn screens alone. |
| RailModel.CounterStepConsumes | src/main.c:137-140 | The rotation step of menu_task clears the counter. |
| RailModel.PressStepConsumes | src/main.c:143-146 | The press step, as written (handler, then flag cleared) and with the flag cleared first, leaves no press pending and the counter and drawn screens alone. |
| RailModel.IterationConsumesInput | src/main.c:108-160 | Every pass, as written and with the flag cleared first, consumes the pending rotation and press and keeps the screens already drawn. It draws the current screen first when a redraw was requested. |
| RailModel.StackStartsOnlyWhenReady | src/main.c:606-626 | An accepted press starts a stack exactly when START STACK is selected, the rail is homed, the plan has shots and a confirmation is present. A started stack shows progress from shot 0 with the rail at the clamped start position. |
| RailModel.PressStopsRunningStack | src/main.c:556-564 | An accepted press during a stack stops it and returns to AUTO_STACK. A press within 200 ms changes nothing. |
| RailModel.MainItemOpensScreen | src/main.c:567-590 | A press on MAIN item i opens screen i with item 0 selected and does not move the rail. |
| RailModel.PressTogglesEditOnEditableItems | src/main.c:552-683 | Edit mode flips exactly on the editable items. |
| RailModel.NavigationOnlyMovesSelection | src/main.c:513-546 | Outside edit mode a rotation changes only the selection (with wrap at both ends) and the redraw flag. |
| RailModel.EditTouchesOnlyItsScreen | src/main.c:410-503 | In edit mode a rotation changes only the current screen's record, never the screen, the selection or the mode. |
| RailModel.StartConfirmedBySamePress | src/main.c:143-146 | As written, a START STACK press starts the stack with no second press. |
| RailModel.ConfirmedStartWaitsForSecondPress | src/main.c:904-918 | With the flag cleared first, the stack starts exactly when a confirming press arrives. |
| RailController.Controller.constructor | src/main.c:17-45 | Boot values of all globals and records, with `total_shots` 201 after menu_init's calculation. |
| RailController.Controller.CalculateStackShots | src/main.c:1016-1025 | calculate_stack_shots sets the plan to Recalculated of the old plan. |
| RailController.Controller.MoveRailSteps | src/main.c:784-822 | Changes the axis state as StepsMoved says, using the pulse loops' counts. |
| RailController.Controller.MoveRail | src/main.c:759-781 | Takes the controller state to AfterMove. |
| RailController.Controller.MovePermitted | src/main.c:770-780 | The permitted path of move_rail follows RailMoved. |
| RailController.Controller.TriggerCamera | src/main.c:825-838 | One more camera trigger and a redraw request. |
| RailController.Controller.HomeRail | src/main.c:841-864 | Consumes the press and zeroes position and steps. The rail becomes homed. |
| RailController.Controller.StopAutoStack | src/main.c:1001-1013 | Not running, on AUTO_STACK, redraw requested. |
| RailController.Controller.StartAutoStack | src/main.c:867-933 | Takes the controller state to AfterStart with the given confirmation outcome. |
| RailController.Controller.BeginStack | src/main.c:920-932 | Takes the controller state to AfterBegin. |
| RailController.Controller.AutoStackTask | src/main.c:936-998 | ShotsRun(total, stop) camera triggers and `shots_taken`. The rail moves MovesBetween steps of ShotStep, then returns to start when completed and asked. The stack ends stopped on AUTO_STACK. |
| RailController.Controller.RunShots | src/main.c:948-964 | The shot loop returns ShotsRun shots, keeps the invariants and moves the axis as DriveAfterMoves says. |
| RailController.Controller.TakeShot | src/main.c:949-960 | One trigger and the count recorded. A move by the step follows unless this is the last shot. |
| RailController.Controller.EndStack | src/main.c:966-995 | A completed run returns to start when asked and consumes the acknowledging press. Every run ends stopped on AUTO_STACK. |
| RailController.Controller.HandleRotation | src/main.c:406-549 | Takes the controller state to AfterRotation and keeps Valid. |
| RailController.Controller.EditSelected | src/main.c:410-503 | Takes the controller state to AfterEdit. |
| RailController.Controller.EditPosition | src/main.c:412-418 | The MANUAL_CONTROL jog follows AfterEdit. |
| RailController.Controller.EditStackField | src/main.c:420-443 | The plan becomes EditStack of the old plan and stays valid. |
| RailController.Controller.EditSettingsField | src/main.c:445-480 | The settings become EditSettings of the old settings and stay valid. |
| RailController.Controller.EditCalibrationField | src/main.c:482-503 | The rail record becomes EditCalibration of the old one and stays valid. |
| RailController.Controller.HandlePress | src/main.c:552-683 | Takes the controller state to AfterPress and keeps Valid. |
| RailController.Controller.DispatchPress | src/main.c:566-681 | The screen switch takes the state to AfterAction. |
| RailController.Controller.PressOnMain | src/main.c:567-590 | The MAIN branch follows AfterAction. |
| RailController.Controller.PressOnManualControl | src/main.c:592-604 | The MANUAL_CONTROL branch follows AfterAction. |
| RailController.Controller.PressOnAutoStack | src/main.c:606-626 | The AUTO_STACK branch follows AfterAction. |
| RailController.Controller.PressStartStack | src/main.c:614-616 | START STACK follows AfterAction. |
| RailController.Controller.PressMarkHere | src/main.c:617-624 | SET START/END HERE follow AfterAction. |
| RailController.Controller.PressOnSettings | src/main.c:628-644 | The SETTINGS branch follows AfterAction. |
| RailController.Controller.PressOnCalibration | src/main.c:646-668 | The CALIBRATION branch follows AfterAction. |
| RailController.Controller.PressOnProgress | src/main.c:670-673 | The STACK_PROGRESS branch follows AfterAction. |
| RailController.Controller.PressOnAdvanced | src/main.c:675-679 | The ADVANCED branch follows AfterAction. |
| RailController.Controller.PressTestMove | src/main.c:653-658 | The test moves follow AfterAction. |
| RailController.Controller.MenuTaskIteration | src/main.c:108-160 | One loop pass, with the press step in the corrected order, takes the state to AfterIteration and keeps Valid. |
| RailController.Controller.Redraw | src/main.c:110-134 | Draws the current screen once when a redraw was requested. |
| RailController.Controller.PressStep | src/main.c:143-146 | The press step in the corrected order (flag cleared before the handler) follows AfterConfirmedPressStep. |
| RailController.Controller.ReadCounter | src/main.c:137-140 | The rotation step follows AfterCounter. |
| RailController.Controller.Refresh | src/main.c:147-155 | The position check and the progress redraw follow AfterRefresh. |
| RailController.Controller.EncoderIsr | src/main.c:705-720 | Within 5 ms nothing changes. Otherwise the time is recorded and the counter steps +1 when CLK != DT and -1 otherwise. |
| RailController.Controller.EncoderSwIsr | src/main.c:723-727 | A low switch line sets the press flag; nothing here clears it. |
| RailController.Controller.UpdatePositionDisplay | src/main.c:1028-1035 | Redraws and records the position exactly when it moved more than 0.001 mm since it was last shown. |
| FocusMenu.WrapSelection | src/menu.c:101-103 | Below 0 goes to the last item, past it goes to 0; the result is always in range. |
| FocusMenu.NextStepSize | src/menu.c:131-138 | The step-size press moves to the next larger size of 1, 5, 10, 50, 100; 100 and any value outside the cycle go to 1. |
| FocusMenu.StepSizeCycles | src/menu.c:131-138 | From 1 the presses visit 5, 10, 50 and 100 in that order; the five sizes visited from any size are pairwise distinct, and the fifth press returns to the start. |
| FocusMenu.InputKeepsValid | src/menu.c:45-173 | Every event keeps the step size in the cycle and the selection in range. |
| FocusMenu.InputsKeepValid | src/menu.c:45-173 | So does any sequence of events. |
| FocusMenu.MoveRotation | src/menu.c:117-124 | Rotation on MOVE moves the position by direction * step size and asks the callback for the same amount, exactly when the motor is enabled and the callback is set. |
| FocusMenu.PositionFollowsRequests | src/menu.c:109-163 | The shown position changes only by a requested move, or is reset to 0 by the settings reset item. |
| FocusMenu.PressReturnsToMain | src/menu.c:110-114 | A press on MOVE, AUTO_STACK or settings item 3 returns to MAIN item 0. The position is kept. |
| FocusMenu.ResetPositionPress | src/menu.c:145-147 | The reset press zeroes the position and changes nothing else but the display. |
| FocusMenu.MotorEnablePress | src/menu.c:139-144 | The enable press flips the flag and passes the new value to the callback when one is set. |
| FocusMenu.MainPressKeepsSelection | src/menu.c:83-97 | MAIN items 0 and 2 open MOVE and AUTO_STACK keeping the selection. Only SETTINGS resets it. |
| FocusMenu.IgnoredInputs | src/menu.c:45-46 | A missing event changes nothing, and neither does a rotation on AUTO_STACK. |
| FocusMenu.Menu.constructor | src/menu.c:14-24 | The initial `menu_config`, with no callbacks set. |
| FocusMenu.Menu.SetStepperCallbacks | src/menu.c:40-43 | Records which callbacks are set. |
| FocusMenu.Menu.Display | src/menu.c:64-79 | Draws the current screen once. |
| FocusMenu.Menu.HandleInput | src/menu.c:45-62 | Takes the menu state to AfterInput and keeps MenuValid. |
| FocusMenu.Menu.HandleMainInput | src/menu.c:82-106 | Follows MainInput. |
| FocusMenu.Menu.HandleMoveInput | src/menu.c:109-125 | Follows MoveInput. |
| FocusMenu.Menu.HandleSettingsInput | src/menu.c:128-163 | Follows SettingsInput. |
| FocusMenu.Menu.HandleAutoStackInput | src/menu.c:166-173 | Follows AutoStackInput. |
| FocusMenu.Menu.TaskTick | src/menu.c:269-275 | Each pass redraws MOVE and nothing else. |
| FocusMenu.Menu.SetMotorEnabled | src/menu.c:279-281 | Sets the enable flag. |
| FocusMenu.Menu.SetFocusPosition | src/menu.c:283-285 | Sets the position. |
| FocusMenu.Menu.UpdateFocusPosition | src/menu.c:287-289 | Adds the delta to the position. |
| FocusMenu.Menu.GetFocusPosition | src/menu.c:291-293 | Returns the position. |
| FocusMenu.Menu.GetStepSize | src/menu.c:295-297 | Returns the step size, always one of the cycle. |
| FocusMenu.Menu.GetMotorEnabled | src/menu.c:299-301 | Returns the enable flag. |
| FocusEncoder.EventFor | src/encoder.c:61-83 | Only the A and switch pins post events. |
| FocusEncoder.Posted | src/encoder.c:71 | A posted event is appended when the queue holds fewer than 10 entries; a full queue, or no event, leaves it unchanged. The queue never exceeds 10 entries. |
| FocusEncoder.EventsAreSingle | src/encoder.c:61-83 | No event is both a rotation and a press; rotations are single steps. |
| FocusEncoder.SwitchAndBRules | src/encoder.c:66-83 | A low switch gives a press. B edges give nothing. A edges give +1 when A != B and -1 otherwise. |
| FocusEncoder.PostedKeepsOrder | src/encoder.c:71 | Posting keeps the queued events in order at the front. |
| FocusEncoder.Encoder.constructor | src/encoder.c:46-52 | An empty queue, and the debounce time at 0. |
| FocusEncoder.Encoder.IsrHandler | src/encoder.c:51-88 | Within 5 ms (unsigned) nothing changes. Otherwise the time is recorded and EventFor's event is posted. |
| FocusEncoder.Encoder.Send | src/encoder.c:71 | Appends the event when the queue has room. |
| FocusEncoder.Encoder.Drain | src/encoder.c:90-100 | Empties the queue into the menu. The menu ends in AfterInputs of the queued events, in order. |
| FocusStepper.Stepper.constructor | src/stepper.c:11-12 | Position 0, motor disabled, no pulses. |
| FocusStepper.Stepper.Init | src/stepper.c:14-32 | Disabled (enable line high), step and dir low, position 0. |
| FocusStepper.Stepper.Enable | src/stepper.c:34-39 | The active-low enable line matches the flag. |
| FocusStepper.Stepper.Move | src/stepper.c:41-66 | Disabled or 0 steps: nothing. Otherwise the dir line shows the sign, \|steps\| pulses are issued and the position moves by `steps`. |
| FocusStepper.Stepper.GetPosition | src/stepper.c:68-70 | Returns the position. |
| FocusStepper.Stepper.ResetPosition | src/stepper.c:72-75 | Zeroes the position. |
| FocusStepper.Stepper.IsEnabled | src/stepper.c:77-79 | Returns the flag, which matches the enable line. |
| Font.FontSevenRows | src/st7735_lcd.c:56-152 | The table has 95 glyphs, and none uses the bottom row. |
| Font.GlyphIndex | src/st7735_lcd.c:595-597 | Characters 32..126 index their glyph; anything else indexes the space. |
| Font.UnprintableIsSpace | src/display.c:386 | An unprintable character sets no pixel, like a space. |
| Font.RowSevenUnused | src/display.c:53-149 | No glyph sets row 7, so the 7-row and 8-row renderings agree. |
| Font.MaskTest | src/st7735_lcd.c:601 | Testing `b & (1 << row)` is testing the low bit of `b >> row`. |
| LineWalk.LineOf | src/st7735_lcd.c:435-439 | dx and dy are non-negative, and sx and sy are +1 or -1. |
| LineWalk.StartOnLine | src/st7735_lcd.c:435-439 | The initial state satisfies the walk invariant. |
| LineWalk.AtEndIsComplete | src/st7735_lcd.c:446 | The end test fires exactly when no steps remain. |
| LineWalk.StepKeepsOnLine | src/st7735_lcd.c:448-456 | A step keeps the invariant, strictly decreases the remaining distance, and moves each coordinate by at most 1. |
| LineWalk.PointsFromStep | src/st7735_lcd.c:443-457 | The walk is the current point followed by the walk from the next state. |
| LineWalk.LineShape | src/st7735_lcd.c:434-498 | A line starts at (x0, y0), ends at (x1, y1), is 8-connected, and stays in the endpoints' box. |
| PixelBus.PixelBytes | src/display.c:345 | Two bytes, high first, that reassemble the colour. |
| PixelBus.Swap16 | src/st7735_lcd.c:391 | The byte swap exchanges the high and low bytes. |
| PixelBus.SwappedWordArrivesInPanelOrder | src/st7735_lcd.c:391-393 | A swapped word stored little-endian is sent high byte first. |
| PixelBus.RepeatShape | src/st7735_lcd.c:356-359 | n pixels are 2n bytes, high then low. |
| PixelBus.RepeatAdd | src/st7735_lcd.c:367-380 | a pixels followed by b pixels are a + b pixels. |
| PixelBus.FilledPrefix | src/st7735_lcd.c:356-359 | A buffer filled pixel by pixel is a run of that colour. |
| PixelBus.SwappedPrefix | src/st7735_lcd.c:522-524 | A word buffer of swapped colours sends that colour's pixels. |
| PixelBus.ChunksCover | src/st7735_lcd.c:367-380 | The chunks sum to the total, each between 1 and the cap. |
| PixelBus.ChunkCount | src/st7735_lcd.c:367-380 | A bulk write takes ceil(total / 2048) transactions. |
| PixelBus.WindowOf | src/st7735_lcd.c:798-815 | A window's coordinates are the 8-bit bytes sent, and equal the arguments when they fit. |
| PixelBus.BulkWriteSendsAll | src/st7735_lcd.c:367-380 | A bulk write carries exactly `total` pixels of the colour, in transactions of 1..2048 pixels. |
| PixelBus.BulkWriteStep | src/st7735_lcd.c:368-370 | The first transaction carries min(remaining, 2048) pixels. |
| St7735.Color565 | src/st7735_lcd.c:704-706 | The top 5, 6 and 5 bits of r, g and b land in bits 15-11, 10-5 and 4-0. |
| St7735.DrawnAtPayload | src/st7735_lcd.c:386-395 | A pixel write carries its 2 bytes when on screen and nothing otherwise. |
| St7735.PlotClipsToScreen | src/st7735_lcd.c:387 | Every window opened by plotting is a single on-screen pixel. |
| St7735.PlotPayload | src/st7735_lcd.c:386-395 | Plotting carries one pixel per visible point and nothing else. |
| St7735.PlotAppend | src/st7735_lcd.c:477-479 | Plotting a concatenation is plotting the parts in order. |
| St7735.ClipExtent | src/st7735_lcd.c:512-513 | A clipped extent is unchanged when it fits, and is exactly `limit - x` when `x + w` passes the edge. |
| St7735.SizeT | src/st7735_lcd.c:517 | `w * h` as a 32-bit `size_t`: below 2^32, congruent to the product modulo 2^32, unchanged when it fits, and the product plus 2^32 when it is a negative int32. |
| St7735.ClippedLength | src/st7735_lcd.c:669-673 | print_line cuts a text to 21 characters when it is wider than 128 pixels. |
| St7735.LayoutLineFeed | src/st7735_lcd.c:589-593 | A line feed only moves the cursor back to x, 8 pixels down. |
| St7735.LayoutGlyph | src/st7735_lcd.c:609-613 | A glyph is placed at the cursor, which advances 6 pixels or wraps at column 123. |
| St7735.TextLayoutRules | src/st7735_lcd.c:582-615 | One glyph per non-line-feed character, in order, on 8-pixel rows, wrapping before column 123. |
| St7735.TextWritesSnoc | src/st7735_lcd.c:586-614 | A text's writes are its glyphs' writes in order. |
| St7735.UnprintableDrawnAsSpace | src/st7735_lcd.c:595 | An unprintable character is drawn exactly as a space. |
| St7735.GlyphInCell | src/st7735_lcd.c:599-607 | A character writes only on-screen single pixels inside its 5 x 8 cell. |
| St7735.GlyphsAt | src/st7735_lcd.c:680-682 | The glyph for each character, with a space for unprintables. |
| St7735.LineImageSize | src/st7735_lcd.c:675-676 | The line buffer holds 96 bytes per character. |
| St7735.LinePixelAt | src/st7735_lcd.c:684-690 | Pixel 6i + col of a row is glyph column col of character i, and column 5 is spacing. |
| St7735.LineImageLayout | src/st7735_lcd.c:690-693 | Pixel xo of row `row` is at bytes 2(row * w + xo) and 2(row * w + xo) + 1, high byte first. |
| St7735.Lcd.constructor | src/st7735_lcd.c:53 | Rotation 0, nothing sent. |
| St7735.Lcd.SetRotation | src/st7735_lcd.c:330-348 | Keeps the rotation modulo 4 and sends MADCTL with its byte. |
| St7735.Lcd.DrawPixel | src/st7735_lcd.c:386-395 | Appends DrawnAt: nothing off screen, otherwise a window and the pixel. |
| St7735.Lcd.FillScreen | src/st7735_lcd.c:351-383 | Appends the full-screen window and a bulk write of 20480 pixels. |
| St7735.Lcd.SendPixelData | src/st7735_lcd.c:361-380 | The transmit loop appends BulkWrite(total). |
| St7735.Lcd.FillRect | src/st7735_lcd.c:510-545 | Nothing when the corner is right of or below the screen. Otherwise the clipped window, then a bulk write of SizeT(w * h) pixels. |
| St7735.Lcd.FillBuffer | src/st7735_lcd.c:521-524 | The first min(2048, total) words hold the swapped colour. |
| St7735.Lcd.SendBuffer | src/st7735_lcd.c:529-542 | The transmit loop appends BulkWrite(total). |
| St7735.Lcd.DrawLine | src/st7735_lcd.c:434-498 | Appends Plot(LinePoints): the Bresenham points, whichever path is taken. |
| St7735.Lcd.DrawLineDirect | src/st7735_lcd.c:442-459 | The short path plots LinePoints. |
| St7735.Lcd.DrawLineBuffered | src/st7735_lcd.c:461-497 | The batched path sends exactly what the direct path sends. The buffer never overflows. |
| St7735.Lcd.FlushIfFull | src/st7735_lcd.c:476-481 | Flushes when 2047 points are pending; the pending count then stays below 2047. |
| St7735.Lcd.Store | src/st7735_lcd.c:468-471 | Stores one point and its colour at the pending index. |
| St7735.Lcd.Flush | src/st7735_lcd.c:495-497 | Plots the pending points after those already drawn. |
| St7735.Lcd.DrawGlyph | src/st7735_lcd.c:595-607 | Appends GlyphWrites for the character. |
| St7735.Lcd.PrintText | src/st7735_lcd.c:582-615 | Appends TextWrites(TextLayout(x, y, text)). |
| St7735.Lcd.PrintLine | src/st7735_lcd.c:666-701 | Appends one window of 6 len x 8 pixels and one transaction carrying LineImage of the clipped text. |
| St7735.Lcd.DrawColumn | src/st7735_lcd.c:600-606 | The row loop for one glyph column. |
| St7735.Lcd.DrawCell | src/st7735_lcd.c:601-605 | The foreground where the bit is set, else the background unless it equals the foreground. |
| TftDisplay.WireCost | src/display.c:378-383 | Off-screen pixels send nothing. Each on-screen pixel costs 12 transactions. |
| TftDisplay.PixelWriteSize | src/display.c:378-383 | One pixel is 11 window transfers plus 1 data transfer, when on screen. |
| TftDisplay.WordsCarry | src/display.c:373-375 | n word writes are n two-byte transactions carrying n pixels. |
| TftDisplay.FillCount | src/display.c:370-376 | Filling sends the window and then exactly 128 x 160 pixels of the colour. |
| TftDisplay.CharDotsSound | src/display.c:385-417 | Every pixel draw_char draws lies in the 5 size x 7 size cell. It is in the foreground exactly where its block's bit is set, and in the background otherwise (only when the colours differ). |
| TftDisplay.CharDotsComplete | src/display.c:390-416 | Every pixel of every cell's size x size block is drawn, in the colour the bit selects (the background only when it differs). |
| TftDisplay.SetBitsAllDrawn | src/display.c:392 | Drawing 7 rows loses no set bit of the 8-row font. |
| TftDisplay.UnprintableDrawnAsSpace | src/display.c:386 | An unprintable character draws exactly what a space draws. |
| TftDisplay.StringLayoutRules | src/display.c:419-439 | One glyph per character other than '\n' and '\r', in order. Every glyph sits on a row a whole number of 8·size heights below the start. A glyph after the first of its line leaves a full cell before the right edge. |
| TftDisplay.StringLineFeed | src/display.c:424-426 | '\n' moves the cursor to x, size * 8 lower. |
| TftDisplay.StringReturn | src/display.c:427-428 | '\r' moves the cursor to x. |
| TftDisplay.StringGlyph | src/display.c:430-435 | A glyph is placed at the cursor, which advances size * 6 or wraps. |
| TftDisplay.StringDotsSnoc | src/display.c:423-438 | A string's pixels are its glyphs' pixels in order. |
| TftDisplay.ShiftedBit | src/display.c:391-414 | After j shifts the low bit of `line` is bit j of the column. |
| TftDisplay.SinglePixelBlock | src/display.c:394-395 | At size 1 the cell is the single pixel drawn directly. |
| TftDisplay.Tft.constructor | src/display.c:156-159 | Nothing sent. |
| TftDisplay.Tft.WriteCommand | src/display.c:322-330 | One command byte. |
| TftDisplay.Tft.WriteData | src/display.c:332-340 | One data byte. |
| TftDisplay.Tft.WriteData16 | src/display.c:342-352 | One two-byte transaction, high byte first. |
| TftDisplay.Tft.SetAddrWindow | src/display.c:354-368 | CASET with 0, x0, 0, x1; RASET with 0, y0, 0, y1; then RAMWR. |
| TftDisplay.Tft.WriteRange | src/display.c:355-359 | One coordinate range: its command and four bytes. |
| TftDisplay.Tft.FillScreen | src/display.c:370-376 | Appends FillWrites: the full window and 20480 word writes. |
| TftDisplay.Tft.DrawPixel | src/display.c:378-383 | Appends PixelWrite: nothing off screen, otherwise the window and the colour. |
| TftDisplay.Tft.DrawChar | src/display.c:385-417 | Appends Wire(CharDots(c, x, y, color, bg, size)). |
| TftDisplay.Tft.DrawGlyph | src/display.c:390-416 | The column loop appends every column's pixels. |
| TftDisplay.Tft.DrawCharColumn | src/display.c:391-415 | One column, rows 0..6, shifting the column byte. |
| TftDisplay.Tft.DrawCell | src/display.c:393-413 | One cell in the foreground, in the background, or nothing. |
| TftDisplay.Tft.DrawScaled | src/display.c:394-401 | A single pixel at size 1, a size x size block otherwise. |
| TftDisplay.Tft.DrawBlock | src/display.c:397-401 | The `a` loop appends the block column by column. |
| TftDisplay.Tft.DrawBlockColumn | src/display.c:398-400 | The `b` loop appends one block column top to bottom. |
| TftDisplay.Tft.PrintString | src/display.c:419-439 | Appends Wire(StringDots(StringLayout(x, y, size, text))). |
| TftDisplay.Tft.PrintGlyph | src/display.c:430 | Draws one character after the ones already placed. |

## Left out

- **Integer widths.** int16, int32 and size_t overflow of coordinates, counts and positions is not modelled. Exceptions: the 32-bit tick subtraction of the debounces (`Elapsed`), `w * h` in fill_rect (`SizeT`), and the 8-bit window coordinates (`WindowOf`, `Byte`).
- **Floats.** Floats are reals; rounding of float arithmetic is not modelled. `fabs` is `Abs`.
- **Blocking waits.** These become inputs:
  - the start confirmation window is the `confirmArrives` flag;
  - a stop request is the point `stop` at which auto_stack_task sees `stack_running` false;
  - home_rail's wait and the completion acknowledgement are taken to end with a press.

  The 10 s timeout and every `vTaskDelay` are not modelled.
- **Concurrency.** auto_stack_task runs beside menu_task and the ISRs; only its sequential effect is modelled. The ISRs are separate methods whose effects menu_task reads.
- RailController.Controller.MenuTaskIteration, RailController.Controller.PressStep: the class runs the corrected press order, clearing `encoder_pressed` before handle_encoder_press (see Findings). The order as written (src/main.c:143-146) is modelled by RailModel.AfterPressStep and RailModel.AfterWrittenIteration, and RailModel.StartConfirmedBySamePress and RailModel.IterationConsumesInput state what it does.
- RailController.Controller.AutoStackTask: does not model interleaving with menu_task, so a press that menu_task handles during a run appears only as the `stop` point.
- **Hardware initialisation is not part of this model:**
  - GPIO and SPI set-up: encoder_init (main.c and encoder.c), stepper_init in main.c, camera_init, st7735_init, st7735_reset, display_init;
  - `app_main`;
  - the task creation in menu_init.
- **Drawing not modelled:**
  - the screen-drawing functions (`display_*_menu`, display_stack_progress's text);
  - `snprintf` formatting;
  - st7735_draw_pixels, st7735_draw_rect, st7735_draw_circle;
  - display_welcome and the focus menu's `display_*` screens.

  Only which screen is drawn is recorded. Progress width and ETA are modelled as values.
- save_settings and load_settings: both are stubs with no storage. save_settings's message box is not drawn, and only its redraw request is modelled.
- The Adafruit-style wrapper `src/st_7735_menu_display.c` is not part of this model.
- The DC and CS pin levels and the SPI handle are not modelled; each transfer records only its kind (command, data or window).
- St7735 set_addr_window is one `Window` transfer instead of its eleven byte writes.
- St7735.Lcd.PrintLine: the buffer-filling loops are not imperative code here. The buffer is the value `LineImage`, whose layout (`LineImageLayout`) matches the loops' indexing.
- C strings are `seq<char>` up to the terminating NUL.
- ESP_LOG calls are not modelled.
- FocusEncoder.Encoder.Drain: encoder_task's endless blocking receive is modelled as handing over the queued events until the queue is empty.
- The menu's stepper callbacks are flags plus traces of their arguments. Calling the real stepper_move is not modelled.

## Findings

| source | as written | input that shows it | evidently intended | confidence | as-written member | corrected member |
|---|---|---|---|---|---|---|
| src/main.c:143-146 | menu_task calls handle_encoder_press while `encoder_pressed` is still true and clears it only afterwards. start_auto_stack's confirmation loop (src/main.c:904-908) therefore finds the flag already set and confirms at once; home_rail's wait (src/main.c:848-851) likewise ends at once. | A homed rail, a plan with shots, AUTO_STACK item 5 selected, one press and no second press: the stack starts. | The start waits for a second, confirming press within 10 s; the flag is cleared before the handler runs. | not executed | RailModel.AfterPressStep, RailModel.StartConfirmedBySamePress | RailModel.AfterConfirmedPressStep, RailModel.ConfirmedStartWaitsForSecondPress |
