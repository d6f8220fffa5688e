/**
 * The macro-rail controller's handlers as functions on a snapshot of all
 * its state. Each handler method of the controller class is proved to
 * take the state it finds to the state these functions give; the lemmas
 * here state what the handlers guarantee across calls.
 */
module RailModel {
  import opened CArith
  import opened RailPlan

  /** Milliseconds within which a second press is ignored. */
  const PressDebounceMs: int := 200
  /** Milliseconds within which a second rotation interrupt is ignored. */
  const RotationDebounceMs: int := 5
  /** Position change, in mm, that makes the manual screen redraw. */
  const PositionRedrawMm: real := 0.001

  /**
   * Every variable of the controller: the menu globals, the three records,
   * the interrupt-written encoder state, the handlers' function-static
   * variables, and the hardware effects counted so far (step pulses,
   * camera triggers, warnings shown, screens drawn).
   */
  datatype Snapshot = Snapshot(
    menu: Screen, selection: int, changed: bool, editing: bool, running: bool,
    rail: RailConfig, stack: StackConfig, system: SystemConfig,
    counter: int, pressed: bool, lastEncoderTime: U32,
    lastPressTime: U32, lastDirection: int, lastShownPosition: real,
    pulses: nat, triggers: nat, warnings: nat, redraws: seq<Screen>)

  /** The ranges every edit keeps, and what a running stack requires. */
  ghost predicate Consistent(s: Snapshot) {
    && RailValid(s.rail) && StackValid(s.stack) && SystemValid(s.system)
    && s.rail.currentPositionMm >= 0.0
    && s.lastDirection in {-1, 0, 1}
    && (s.running ==> s.rail.homed)
  }

  /** The axis part of a snapshot. */
  function DriveOf(s: Snapshot): Drive {
    Drive(s.rail, s.lastDirection, s.pulses)
  }

  /**
   * move_rail(distanceMm): the axis moves as RailMoved says; a refused
   * move (rail not homed) shows a warning and requests a redraw.
   */
  ghost function AfterMove(s: Snapshot, distanceMm: real): Snapshot {
    var refused := MoveRefused(s.rail, distanceMm);
    var m := RailMoved(DriveOf(s), distanceMm, s.system.backlashCompensation);
    s.(rail := m.rail, lastDirection := m.lastDirection, pulses := m.pulses,
       warnings := if refused then s.warnings + 1 else s.warnings,
       changed := s.changed || refused)
  }

  /** A permitted move changes the axis as RailMoved says and nothing else. */
  lemma PermittedMoveState(s: Snapshot, s': Snapshot, distanceMm: real)
    requires !MoveRefused(s.rail, distanceMm)
    requires DriveOf(s') == RailMoved(DriveOf(s), distanceMm, s.system.backlashCompensation)
    requires s' == s.(rail := s'.rail, lastDirection := s'.lastDirection, pulses := s'.pulses)
    ensures s' == AfterMove(s, distanceMm)
  {
  }

  /**
   * start_auto_stack. `confirmArrives` says whether a press comes within
   * the 10 s confirmation window; a press already flagged on entry
   * confirms at once and is consumed.
   */
  ghost function AfterStart(s: Snapshot, confirmArrives: bool): Snapshot {
    if !s.rail.homed || s.stack.totalShots <= 0 then
      s.(warnings := s.warnings + 1, changed := true)
    else if !s.pressed && !confirmArrives then
      s.(changed := true)
    else
      AfterBegin(s.(pressed := false))
  }

  /**
   * A confirmed start: the shot count restarts at 0, the progress screen
   * is shown, and the rail moves to the start position.
   */
  ghost function AfterBegin(s: Snapshot): Snapshot {
    var started := s.(stack := s.stack.(shotsTaken := 0), running := true, menu := StackProgress);
    AfterMove(started, s.stack.startPositionMm - s.rail.currentPositionMm).(changed := true)
  }

  lemma BeginIsMoveFromStarted(s0: Snapshot, s1: Snapshot, s2: Snapshot)
    requires s1 == s0.(stack := s0.stack.(shotsTaken := 0), running := true, menu := StackProgress)
    requires s2 == AfterMove(s1, s1.stack.startPositionMm - s1.rail.currentPositionMm).(changed := true)
    ensures s2 == AfterBegin(s0)
  {
  }

  /** The screen switch of handle_encoder_press, then the redraw request. */
  ghost function AfterAction(s: Snapshot, confirmArrives: bool): Snapshot {
    match ActionFor(s.menu, s.selection)
    case NoAction => s.(changed := true)
    case SaveSettings => s.(changed := true)
    case ToggleEdit => s.(editing := !s.editing, changed := true)
    case OpenScreen(target) => s.(menu := target, selection := 0, changed := true)
    case HomeRail =>
      s.(rail := s.rail.(currentPositionMm := 0.0, totalSteps := 0, homed := true), pressed := false,
         changed := true)
    case TakePhoto => s.(triggers := s.triggers + 1, changed := true)
    case StartStack => AfterStart(s, confirmArrives)
    case StartHere =>
      s.(stack := Recalculated(s.stack.(startPositionMm := s.rail.currentPositionMm)), changed := true)
    case EndHere =>
      s.(stack := Recalculated(s.stack.(endPositionMm := s.rail.currentPositionMm)), changed := true)
    case ToggleBeep => s.(system := s.system.(beepEnabled := !s.system.beepEnabled), changed := true)
    case TestMove(distanceMm) => AfterMove(s, distanceMm).(changed := true)
    case ResetPosition => s.(rail := s.rail.(currentPositionMm := 0.0, totalSteps := 0), changed := true)
    case StopStack => s.(running := false, menu := AutoStack, changed := true)
  }

  /** START STACK runs start_auto_stack, then requests a redraw. */
  lemma StartActionRedraws(s: Snapshot, confirmArrives: bool)
    requires ActionFor(s.menu, s.selection) == StartStack
    ensures AfterAction(s, confirmArrives) == AfterStart(s, confirmArrives).(changed := true)
  {
  }

  /** The calibration test items move the rail by 1 mm and 10 mm, then request a redraw. */
  lemma TestMoveAction(s: Snapshot, confirmArrives: bool, distanceMm: real)
    requires s.menu == Calibration && s.selection in {3, 4}
    requires distanceMm == if s.selection == 3 then 1.0 else 10.0
    ensures AfterAction(s, confirmArrives) == AfterMove(s, distanceMm).(changed := true)
  {
  }

  /** The confirmation window matters only to the START STACK item. */
  lemma ConfirmationOnlyForStart(s: Snapshot, confirmArrives: bool)
    ensures ActionFor(s.menu, s.selection) != StartStack ==>
      AfterAction(s, confirmArrives) == AfterAction(s, false)
  {
  }

  /** Whether a press at `now` is outside the 200 ms window of the last accepted one. */
  function PressAccepted(s: Snapshot, now: U32): bool {
    Elapsed(now, s.lastPressTime) >= PressDebounceMs
  }

  /**
   * handle_encoder_press at time `now`: a press within the debounce
   * window is ignored; an accepted one is recorded and stops a running
   * stack, or else is dispatched on the selected item.
   */
  ghost function AfterPress(s: Snapshot, now: U32, confirmArrives: bool): Snapshot {
    if !PressAccepted(s, now) then s
    else if s.running then s.(lastPressTime := now, running := false, menu := AutoStack, changed := true)
    else AfterAction(s.(lastPressTime := now), confirmArrives)
  }

  /** The edit-mode branch of handle_encoder_rotation, by `d` already scaled by the sensitivity. */
  ghost function AfterEdit(s: Snapshot, d: int): Snapshot {
    match s.menu
    case ManualControl =>
      if s.selection == 0 then AfterMove(s, JogDistance(d, s.rail.stepSizeMicrons)) else s
    case AutoStack => s.(stack := EditStack(s.stack, s.selection, d))
    case Settings => s.(system := EditSettings(s.system, s.selection, d))
    case Calibration => s.(rail := EditCalibration(s.rail, s.selection, d))
    case _ => s
  }

  /**
   * handle_encoder_rotation(direction): edit the selected field in edit
   * mode, otherwise move the selection with wrap-around; always redraw.
   */
  ghost function AfterRotation(s: Snapshot, direction: int): Snapshot {
    var d := direction * s.system.encoderSensitivity;
    if s.editing then AfterEdit(s, d).(changed := true)
    else s.(selection := NextSelection(s.selection, d, ItemCount(s.menu)), changed := true)
  }

  /** The press step of menu_task as written: the handler runs, then the flag is cleared. */
  ghost function AfterPressStep(s: Snapshot, now: U32, confirmArrives: bool): Snapshot {
    if s.pressed then AfterPress(s, now, confirmArrives).(pressed := false) else s
  }

  /** The press step with the flag cleared before the handler runs. */
  ghost function AfterConfirmedPressStep(s: Snapshot, now: U32, confirmArrives: bool): Snapshot {
    if s.pressed then AfterPress(s.(pressed := false), now, confirmArrives) else s
  }

  /** The first step of menu_task: a pending redraw request draws the current screen once. */
  ghost function AfterRedraw(s: Snapshot): Snapshot {
    if s.changed then s.(redraws := s.redraws + [s.menu], changed := false) else s
  }

  /** The rotation step of menu_task: one detent in the counter's direction, then the counter is cleared. */
  ghost function AfterCounter(s: Snapshot): Snapshot {
    if s.counter == 0 then s
    else AfterRotation(s, if s.counter > 0 then 1 else -1).(counter := 0)
  }

  /** update_position_display: redraw when the position moved by more than 0.001 mm since last shown. */
  ghost function AfterPositionCheck(s: Snapshot): Snapshot {
    if Abs(s.rail.currentPositionMm - s.lastShownPosition) > PositionRedrawMm then
      s.(lastShownPosition := s.rail.currentPositionMm, changed := true)
    else s
  }

  /** The display steps at the end of a menu_task pass. */
  ghost function AfterRefresh(s: Snapshot): Snapshot {
    var s1 := if s.menu == ManualControl then AfterPositionCheck(s) else s;
    if s1.running && s1.menu == StackProgress then s1.(redraws := s1.redraws + [StackProgress]) else s1
  }

  /**
   * One pass of menu_task's loop, with the press flag cleared before the
   * press handler runs (see AfterConfirmedPressStep).
   */
  ghost function AfterIteration(s: Snapshot, now: U32, confirmArrives: bool): Snapshot {
    AfterRefresh(AfterConfirmedPressStep(AfterCounter(AfterRedraw(s)), now, confirmArrives))
  }

  /** One pass of menu_task's loop as written: the press flag is cleared after the press handler. */
  ghost function AfterWrittenIteration(s: Snapshot, now: U32, confirmArrives: bool): Snapshot {
    AfterRefresh(AfterPressStep(AfterCounter(AfterRedraw(s)), now, confirmArrives))
  }

  lemma IterationComposes(s0: Snapshot, s1: Snapshot, s2: Snapshot, s3: Snapshot, s4: Snapshot,
                          now: U32, confirmArrives: bool)
    requires s1 == AfterRedraw(s0) && s2 == AfterCounter(s1)
    requires s3 == AfterConfirmedPressStep(s2, now, confirmArrives) && s4 == AfterRefresh(s3)
    ensures s4 == AfterIteration(s0, now, confirmArrives)
  {
  }

  // ---------------------------------------------------------------------
  // What the handlers keep

  lemma MoveKeepsConsistent(s: Snapshot, distanceMm: real)
    requires Consistent(s)
    ensures Consistent(AfterMove(s, distanceMm))
    ensures AfterMove(s, distanceMm).rail.homed == s.rail.homed
  {
    var m := RailMoved(DriveOf(s), distanceMm, s.system.backlashCompensation);
    assert m.rail == RailAfterMove(s.rail, distanceMm);
  }

  lemma StartKeepsConsistent(s: Snapshot, confirmArrives: bool)
    requires Consistent(s)
    ensures Consistent(AfterStart(s, confirmArrives))
  {
    if s.rail.homed && s.stack.totalShots > 0 && (s.pressed || confirmArrives) {
      var started := s.(stack := s.stack.(shotsTaken := 0), running := true, menu := StackProgress,
                        pressed := false);
      MoveKeepsConsistent(started, s.stack.startPositionMm - s.rail.currentPositionMm);
    }
  }

  /** Every press keeps the ranges, the position floor and the homed-while-running rule. */
  lemma PressKeepsConsistent(s: Snapshot, now: U32, confirmArrives: bool)
    requires Consistent(s)
    ensures Consistent(AfterPress(s, now, confirmArrives))
  {
    if PressAccepted(s, now) && !s.running {
      ActionKeepsConsistent(s.(lastPressTime := now), confirmArrives);
    }
  }

  lemma ActionKeepsConsistent(s: Snapshot, confirmArrives: bool)
    requires Consistent(s) && !s.running
    ensures Consistent(AfterAction(s, confirmArrives))
  {
    match ActionFor(s.menu, s.selection)
    case StartStack => StartKeepsConsistent(s, confirmArrives);
    case TestMove(distanceMm) => MoveKeepsConsistent(s, distanceMm);
    case _ =>
  }

  /** Every rotation keeps the ranges, the position floor and whether the rail is homed. */
  lemma RotationKeepsConsistent(s: Snapshot, direction: int)
    requires Consistent(s)
    ensures Consistent(AfterRotation(s, direction))
    ensures 0 <= AfterRotation(s, direction).selection < ItemCount(s.menu) || s.editing
    ensures AfterRotation(s, direction).rail.homed == s.rail.homed
  {
    if s.editing {
      EditKeepsConsistent(s, direction * s.system.encoderSensitivity);
    }
    RotationKeepsHomed(s, direction);
  }

  /** No rotation, whether it edits or navigates, changes whether the rail is homed. */
  lemma RotationKeepsHomed(s: Snapshot, direction: int)
    ensures AfterRotation(s, direction).rail.homed == s.rail.homed
  {
    var d := direction * s.system.encoderSensitivity;
    if s.editing && s.menu == ManualControl && s.selection == 0 {
      MoveKeepsHomed(s, JogDistance(d, s.rail.stepSizeMicrons));
    }
  }

  /** A move, permitted or refused, leaves `homed` as it was. */
  lemma MoveKeepsHomed(s: Snapshot, distanceMm: real)
    ensures AfterMove(s, distanceMm).rail.homed == s.rail.homed
  {
    var m := RailMoved(DriveOf(s), distanceMm, s.system.backlashCompensation);
    assert m.rail == RailAfterMove(s.rail, distanceMm);
  }

  /**
   * An accepted press with no stack running homes the rail exactly when
   * HOME RAIL is selected, with position and step count zeroed; no other
   * press makes an unhomed rail homed.
   */
  lemma PressHomesOnlyByHoming(s: Snapshot, now: U32, confirmArrives: bool)
    ensures var s' := AfterPress(s, now, confirmArrives);
      !s.rail.homed && s'.rail.homed ==>
        PressAccepted(s, now) && !s.running && ActionFor(s.menu, s.selection) == HomeRail
    ensures var s' := AfterPress(s, now, confirmArrives);
      PressAccepted(s, now) && !s.running && ActionFor(s.menu, s.selection) == HomeRail ==>
        s'.rail.homed && s'.rail.currentPositionMm == 0.0 && s'.rail.totalSteps == 0
  {
    var t := s.(lastPressTime := now);
    var a := ActionFor(t.menu, t.selection);
    if PressAccepted(s, now) && !s.running && a.TestMove? {
      MoveKeepsHomed(t, a.distanceMm);
    }
  }

  /**
   * Across one menu_task pass, in either press order, an unhomed rail
   * becomes homed only by a pending, accepted press on HOME RAIL, and
   * then sits at position 0 with no steps counted.
   */
  lemma HomedOnlyByHoming(s: Snapshot, now: U32, confirmArrives: bool)
    ensures var u := AfterCounter(AfterRedraw(s)); var s' := AfterIteration(s, now, confirmArrives);
      !s.rail.homed && s'.rail.homed ==>
        && u.pressed && PressAccepted(u, now) && !u.running && ActionFor(u.menu, u.selection) == HomeRail
        && s'.rail.currentPositionMm == 0.0 && s'.rail.totalSteps == 0
    ensures var u := AfterCounter(AfterRedraw(s)); var s' := AfterWrittenIteration(s, now, confirmArrives);
      !s.rail.homed && s'.rail.homed ==>
        && u.pressed && PressAccepted(u, now) && !u.running && ActionFor(u.menu, u.selection) == HomeRail
        && s'.rail.currentPositionMm == 0.0 && s'.rail.totalSteps == 0
  {
    var r := AfterRedraw(s);
    var u := AfterCounter(r);
    if r.counter != 0 {
      RotationKeepsHomed(r, if r.counter > 0 then 1 else -1);
    }
    PressHomesOnlyByHoming(u.(pressed := false), now, confirmArrives);
    PressHomesOnlyByHoming(u, now, confirmArrives);
  }

  lemma EditKeepsConsistent(s: Snapshot, d: int)
    requires Consistent(s)
    ensures Consistent(AfterEdit(s, d))
  {
    match s.menu
    case ManualControl =>
      if s.selection == 0 {
        MoveKeepsConsistent(s, JogDistance(d, s.rail.stepSizeMicrons));
      }
    case AutoStack =>
      assert StackValid(EditStack(s.stack, s.selection, d));
    case Settings =>
      assert SystemValid(EditSettings(s.system, s.selection, d));
    case Calibration =>
      var r := EditCalibration(s.rail, s.selection, d);
      assert RailValid(r) && r.currentPositionMm == s.rail.currentPositionMm && r.homed == s.rail.homed;
    case _ =>
  }

  /** A move changes only the axis, the warnings shown and the redraw request. */
  lemma MoveTouchesOnlyAxis(s: Snapshot, distanceMm: real)
    ensures var t := AfterMove(s, distanceMm);
      t == s.(rail := t.rail, lastDirection := t.lastDirection, pulses := t.pulses,
              warnings := t.warnings, changed := t.changed)
  {
  }

  /** Whether `t` has the interrupt inputs and the drawn screens of `s`, with no press flagged that `s` lacked. */
  ghost predicate InputsKept(s: Snapshot, t: Snapshot) {
    t.counter == s.counter && t.redraws == s.redraws && (t.pressed ==> s.pressed)
  }

  lemma StartKeepsInputs(s: Snapshot, confirmArrives: bool)
    ensures InputsKept(s, AfterStart(s, confirmArrives))
  {
    if s.rail.homed && s.stack.totalShots > 0 && (s.pressed || confirmArrives) {
      var started := s.(stack := s.stack.(shotsTaken := 0), running := true, menu := StackProgress,
                        pressed := false);
      MoveTouchesOnlyAxis(started, s.stack.startPositionMm - s.rail.currentPositionMm);
    }
  }

  lemma ActionKeepsInputs(s: Snapshot, confirmArrives: bool)
    ensures InputsKept(s, AfterAction(s, confirmArrives))
  {
    match ActionFor(s.menu, s.selection)
    case StartStack => StartKeepsInputs(s, confirmArrives);
    case TestMove(distanceMm) => MoveTouchesOnlyAxis(s, distanceMm);
    case _ =>
  }

  /** A press handler never sets the press flag, the rotation counter or the drawn screens. */
  lemma PressKeepsInputs(s: Snapshot, now: U32, confirmArrives: bool)
    ensures InputsKept(s, AfterPress(s, now, confirmArrives))
  {
    if PressAccepted(s, now) && !s.running {
      ActionKeepsInputs(s.(lastPressTime := now), confirmArrives);
    }
  }

  /** A rotation handler leaves the interrupt inputs and the drawn screens alone. */
  lemma RotationKeepsInputs(s: Snapshot, direction: int)
    ensures var t := AfterRotation(s, direction);
      t.counter == s.counter && t.redraws == s.redraws && t.pressed == s.pressed
  {
    if s.editing && s.menu == ManualControl && s.selection == 0 {
      MoveTouchesOnlyAxis(s, JogDistance(direction * s.system.encoderSensitivity, s.rail.stepSizeMicrons));
    }
  }

  /** The rotation step clears the counter and leaves the press flag and the drawn screens alone. */
  lemma CounterStepConsumes(s: Snapshot)
    ensures var t := AfterCounter(s);
      t.counter == 0 && t.pressed == s.pressed && t.redraws == s.redraws
  {
    if s.counter != 0 {
      RotationKeepsInputs(s, if s.counter > 0 then 1 else -1);
    }
  }

  /**
   * The press step, in either order of handler and flag clearing, leaves
   * no press flagged and the counter and drawn screens alone.
   */
  lemma PressStepConsumes(s: Snapshot, now: U32, confirmArrives: bool)
    ensures var t := AfterPressStep(s, now, confirmArrives);
      t.counter == s.counter && !t.pressed && t.redraws == s.redraws
    ensures var t := AfterConfirmedPressStep(s, now, confirmArrives);
      t.counter == s.counter && !t.pressed && t.redraws == s.redraws
  {
    if s.pressed {
      PressKeepsInputs(s, now, confirmArrives);
      PressKeepsInputs(s.(pressed := false), now, confirmArrives);
    }
  }

  /**
   * Every pass of menu_task, as written and with the flag cleared first,
   * consumes the pending rotation and press, keeps the screens already
   * drawn, and draws the current screen first when a redraw was requested.
   */
  lemma IterationConsumesInput(s: Snapshot, now: U32, confirmArrives: bool)
    ensures var t := AfterWrittenIteration(s, now, confirmArrives);
      && t.counter == 0 && !t.pressed
      && |t.redraws| >= |s.redraws| && t.redraws[..|s.redraws|] == s.redraws
      && (s.changed ==> |t.redraws| > |s.redraws| && t.redraws[|s.redraws|] == s.menu)
    ensures var t := AfterIteration(s, now, confirmArrives);
      && t.counter == 0 && !t.pressed
      && |t.redraws| >= |s.redraws| && t.redraws[..|s.redraws|] == s.redraws
      && (s.changed ==> |t.redraws| > |s.redraws| && t.redraws[|s.redraws|] == s.menu)
  {
    var s1 := AfterRedraw(s);
    CounterStepConsumes(s1);
    var s2 := AfterCounter(s1);
    PressStepConsumes(s2, now, confirmArrives);
    RefreshConsumes(s, AfterPressStep(s2, now, confirmArrives));
    RefreshConsumes(s, AfterConfirmedPressStep(s2, now, confirmArrives));
  }

  /** The refresh steps after the input steps of a pass that began at `s`. */
  lemma RefreshConsumes(s: Snapshot, u: Snapshot)
    requires u.counter == 0 && !u.pressed && u.redraws == AfterRedraw(s).redraws
    ensures var t := AfterRefresh(u);
      && t.counter == 0 && !t.pressed
      && |t.redraws| >= |s.redraws| && t.redraws[..|s.redraws|] == s.redraws
      && (s.changed ==> |t.redraws| > |s.redraws| && t.redraws[|s.redraws|] == s.menu)
  {
    var t := AfterRefresh(u);
    assert t.redraws == u.redraws || t.redraws == u.redraws + [StackProgress];
  }

  // ---------------------------------------------------------------------
  // What the handlers guarantee

  /**
   * An accepted press with no stack running starts one exactly when the
   * START STACK item is selected, the rail is homed, the plan has shots
   * and a confirmation is at hand (flagged already or arriving in time);
   * a started stack shows the progress screen from shot 0 with the rail
   * sent to the start position.
   */
  lemma StackStartsOnlyWhenReady(s: Snapshot, now: U32, confirmArrives: bool)
    requires PressAccepted(s, now) && !s.running
    ensures var s' := AfterPress(s, now, confirmArrives);
      s'.running <==>
        ActionFor(s.menu, s.selection) == StartStack && s.rail.homed && s.stack.totalShots > 0
        && (s.pressed || confirmArrives)
    ensures var s' := AfterPress(s, now, confirmArrives);
      s'.running ==>
        && s'.menu == StackProgress && s'.stack.shotsTaken == 0 && !s'.pressed
        && s'.rail.currentPositionMm == ClampPosition(s.stack.startPositionMm, s.rail.maxTravelMm)
  {
    var t := s.(lastPressTime := now);
    var a := ActionFor(t.menu, t.selection);
    if a == StartStack && s.rail.homed && s.stack.totalShots > 0 && (s.pressed || confirmArrives) {
      var started := t.(stack := t.stack.(shotsTaken := 0), running := true, menu := StackProgress,
                        pressed := false);
      var dist := s.stack.startPositionMm - s.rail.currentPositionMm;
      var m := RailMoved(DriveOf(started), dist, started.system.backlashCompensation);
      assert m.rail == RailAfterMove(started.rail, dist);
      assert s.rail.currentPositionMm + dist == s.stack.startPositionMm;
    } else if a.TestMove? {
      var m := RailMoved(DriveOf(t), a.distanceMm, t.system.backlashCompensation);
      assert AfterPress(s, now, confirmArrives).running == t.running;
    }
  }

  /**
   * The STACK_PROGRESS screen is only shown with shots planned, so its
   * bar width, shots_taken * 100 / total_shots, never divides by zero.
   */
  ghost predicate ProgressHasShots(s: Snapshot) {
    s.menu == StackProgress ==> s.stack.totalShots > 0
  }

  /** The only way onto STACK_PROGRESS is a confirmed start, which requires shots. */
  lemma PressKeepsProgressShots(s: Snapshot, now: U32, confirmArrives: bool)
    requires ProgressHasShots(s)
    ensures ProgressHasShots(AfterPress(s, now, confirmArrives))
    ensures var s' := AfterPress(s, now, confirmArrives);
      s.menu != StackProgress && s'.menu == StackProgress ==> s.stack.totalShots > 0
  {
    var t := s.(lastPressTime := now);
    var a := ActionFor(t.menu, t.selection);
    if PressAccepted(s, now) && !s.running {
      if a.TestMove? {
        assert AfterMove(t, a.distanceMm).stack == t.stack && AfterMove(t, a.distanceMm).menu == t.menu;
      } else if a.OpenScreen? && s.menu == Main {
        assert a.target != StackProgress;
      }
    }
  }

  /** No rotation enters STACK_PROGRESS, and edits on it change nothing. */
  lemma RotationKeepsProgressShots(s: Snapshot, direction: int)
    requires ProgressHasShots(s)
    ensures ProgressHasShots(AfterRotation(s, direction))
  {
  }

  /**
   * Every menu_task pass, in either press order, keeps the STACK_PROGRESS
   * screen to plans with shots; the boot state, on MAIN, starts there.
   */
  lemma IterationKeepsProgressShots(s: Snapshot, now: U32, confirmArrives: bool)
    requires ProgressHasShots(s)
    ensures ProgressHasShots(AfterIteration(s, now, confirmArrives))
    ensures ProgressHasShots(AfterWrittenIteration(s, now, confirmArrives))
  {
    var r := AfterRedraw(s);
    var u := AfterCounter(r);
    if r.counter != 0 {
      RotationKeepsProgressShots(r, if r.counter > 0 then 1 else -1);
    }
    if u.pressed {
      PressKeepsProgressShots(u.(pressed := false), now, confirmArrives);
      PressKeepsProgressShots(u, now, confirmArrives);
    }
  }

  /** An accepted press while a stack runs stops it and returns to AUTO_STACK. */
  lemma PressStopsRunningStack(s: Snapshot, now: U32, confirmArrives: bool)
    requires s.running
    ensures var s' := AfterPress(s, now, confirmArrives);
      PressAccepted(s, now) ==> !s'.running && s'.menu == AutoStack && s'.changed && s'.lastPressTime == now
    ensures !PressAccepted(s, now) ==> AfterPress(s, now, confirmArrives) == s
  {
  }

  /** A press on MAIN item i (0..4) opens the screen of that item with its first item selected. */
  lemma MainItemOpensScreen(s: Snapshot, now: U32, confirmArrives: bool)
    requires PressAccepted(s, now) && !s.running
    requires s.menu == Main && 0 <= s.selection < 5
    ensures AfterPress(s, now, confirmArrives).menu == MainTarget(s.selection)
    ensures AfterPress(s, now, confirmArrives).selection == 0
    ensures AfterPress(s, now, confirmArrives).rail == s.rail
  {
  }

  /**
   * A press toggles edit mode exactly on the items the rotation handler
   * can edit; no other press changes it.
   */
  lemma PressTogglesEditOnEditableItems(s: Snapshot, now: U32, confirmArrives: bool)
    requires PressAccepted(s, now) && !s.running
    ensures AfterPress(s, now, confirmArrives).editing != s.editing <==> Editable(s.menu, s.selection)
  {
    var t := s.(lastPressTime := now);
    var a := ActionFor(t.menu, t.selection);
    ToggleEditMatchesEditRules(s.menu, s.selection, 0, s.stack, s.system, s.rail);
    if a == StartStack {
      if s.rail.homed && s.stack.totalShots > 0 && (s.pressed || confirmArrives) {
        var started := t.(stack := t.stack.(shotsTaken := 0), running := true, menu := StackProgress,
                          pressed := false);
        assert AfterStart(t, confirmArrives).editing == started.editing;
      }
    } else if a.TestMove? {
      assert AfterAction(t, confirmArrives).editing == AfterMove(t, a.distanceMm).editing;
    }
  }

  /**
   * Outside edit mode a rotation only moves the selection, wrapping at
   * both ends; nothing else but the redraw request changes.
   */
  lemma NavigationOnlyMovesSelection(s: Snapshot, direction: int)
    requires !s.editing
    ensures var s' := AfterRotation(s, direction);
      s' == s.(selection := s'.selection, changed := true)
    ensures var d := direction * s.system.encoderSensitivity;
      var s' := AfterRotation(s, direction);
      && 0 <= s'.selection < ItemCount(s.menu)
      && (s.selection + d < 0 ==> s'.selection == ItemCount(s.menu) - 1)
      && (s.selection + d >= ItemCount(s.menu) ==> s'.selection == 0)
  {
  }

  /**
   * In edit mode a rotation changes only the record of the current screen
   * (the axis for MANUAL_CONTROL's position item), never the screen, the
   * selection or edit mode.
   */
  lemma EditTouchesOnlyItsScreen(s: Snapshot, direction: int)
    requires s.editing
    ensures var s' := AfterRotation(s, direction);
      && s'.menu == s.menu && s'.selection == s.selection && s'.editing && s'.running == s.running
      && (s.menu != AutoStack ==> s'.stack == s.stack)
      && (s.menu != Settings ==> s'.system == s.system)
      && (s.menu !in {Calibration, ManualControl} ==> s'.rail == s.rail)
  {
  }

  // ---------------------------------------------------------------------
  // The confirmation of start_auto_stack under menu_task's press step

  /**
   * As written, menu_task calls the press handler while the press flag is
   * still set, so START STACK finds its confirmation already flagged: the
   * stack starts although no second press comes.
   */
  lemma StartConfirmedBySamePress(s: Snapshot, now: U32)
    requires s.menu == AutoStack && s.selection == 5 && !s.running
    requires s.rail.homed && s.stack.totalShots > 0 && s.pressed && PressAccepted(s, now)
    ensures AfterPressStep(s, now, false).running
  {
    StackStartsOnlyWhenReady(s, now, false);
  }

  /**
   * With the flag cleared first, the stack starts on a START STACK press
   * exactly when a confirming press arrives within the window.
   */
  lemma ConfirmedStartWaitsForSecondPress(s: Snapshot, now: U32, confirmArrives: bool)
    requires s.menu == AutoStack && s.selection == 5 && !s.running
    requires s.rail.homed && s.stack.totalShots > 0 && s.pressed && PressAccepted(s, now)
    ensures AfterConfirmedPressStep(s, now, confirmArrives).running <==> confirmArrives
  {
    StackStartsOnlyWhenReady(s.(pressed := false), now, confirmArrives);
  }
}
