/**
 * The macro-rail controller: the menu globals, the three configuration
 * records and the handlers that update them in place. Hardware effects are
 * ghost counters (step pulses, camera triggers, warnings shown, screens
 * redrawn); blocking waits and the concurrently running stack task's stop
 * request are inputs.
 */
module RailController {
  import opened CArith
  import opened RailPlan
  import opened RailModel

  class Controller {
    var currentMenu: Screen
    var menuSelection: int
    var menuChanged: bool
    var inEditMode: bool
    var stackRunning: bool

    var rail: RailConfig
    var stack: StackConfig
    var system: SystemConfig

    // written by the interrupt handlers
    var encoderCounter: int
    var encoderPressed: bool
    var lastEncoderTime: U32

    // function-static state of the handlers
    var lastPressTime: U32
    var lastDirection: int
    var lastShownPosition: real

    ghost var stepPulses: nat
    ghost var cameraTriggers: nat
    ghost var warnings: nat
    ghost var redraws: seq<Screen>

    /** The ranges every edit keeps, and what starting a stack requires. */
    ghost predicate Valid()
      reads this
    {
      Consistent(State())
    }

    ghost function State(): Snapshot
      reads this
    {
      Snapshot(currentMenu, menuSelection, menuChanged, inEditMode, stackRunning,
               rail, stack, system, encoderCounter, encoderPressed, lastEncoderTime,
               lastPressTime, lastDirection, lastShownPosition,
               stepPulses, cameraTriggers, warnings, redraws)
    }

    /** The axis as the move functions see it. */
    ghost function DriveState(): Drive
      reads this`rail, this`lastDirection, this`stepPulses
    {
      Drive(rail, lastDirection, stepPulses)
    }

    /** Boot state: the static initialisers, then menu_init's shot calculation. */
    constructor ()
      ensures Valid()
      ensures currentMenu == Main && menuSelection == 0 && menuChanged
      ensures !inEditMode && !stackRunning
      ensures rail == RailConfig(0.625, 100.0, 0.0, 0, 1600, false)
      ensures stack == StackConfig(0.0, 10.0, 50.0, 201, 0, 2000, false, true)
      ensures system == SystemConfig(80, 100, 500, true, 25.0, 1)
      ensures encoderCounter == 0 && !encoderPressed && lastEncoderTime == 0
      ensures lastPressTime == 0 && lastDirection == 0 && lastShownPosition == -999.0
      ensures stepPulses == 0 && cameraTriggers == 0 && warnings == 0 && redraws == []
    {
      currentMenu := Main;
      menuSelection := 0;
      menuChanged := true;
      inEditMode := false;
      stackRunning := false;
      rail := RailConfig(0.625, 100.0, 0.0, 0, 1600, false);
      stack := StackConfig(0.0, 10.0, 50.0, 0, 0, 2000, false, true);
      system := SystemConfig(80, 100, 500, true, 25.0, 1);
      encoderCounter := 0;
      encoderPressed := false;
      lastEncoderTime := 0;
      lastPressTime := 0;
      lastDirection := 0;
      lastShownPosition := -999.0;
      stepPulses := 0;
      cameraTriggers := 0;
      warnings := 0;
      redraws := [];
      new;
      DefaultPlanShots();
      CalculateStackShots();
    }

    /** calculate_stack_shots. */
    method CalculateStackShots()
      modifies this`stack
      ensures stack == Recalculated(old(stack))
    {
      var distance := Abs(stack.endPositionMm - stack.startPositionMm);
      var stepDistance := stack.stepSizeMicrons / 1000.0;
      if distance > 0.0 && stepDistance > 0.0 {
        stack := stack.(totalShots := Trunc(distance / stepDistance) + 1);
      } else {
        stack := stack.(totalShots := 0);
      }
    }

    /** move_rail_steps: direction bookkeeping, the two pulse loops, total_steps. */
    method MoveRailSteps(steps: int)
      requires lastDirection in {-1, 0, 1}
      modifies this`rail, this`lastDirection, this`stepPulses
      ensures DriveState() ==
        StepsMoved(old(DriveState()), steps, BacklashSteps(system.backlashCompensation, old(rail.stepsPerMm)))
      ensures lastDirection in {-1, 0, 1}
    {
      if steps == 0 {
        return;
      }
      var currentDirection := if steps > 0 then 1 else -1;
      ghost var pulses0 := stepPulses;
      ghost var backlashIssued := 0;
      if lastDirection != 0 && lastDirection != currentDirection {
        var backlashSteps := Trunc(system.backlashCompensation * rail.stepsPerMm as real / 1000.0);
        var i := 0;
        while i < backlashSteps
          invariant 0 <= i <= (if backlashSteps < 0 then 0 else backlashSteps)
          invariant stepPulses == pulses0 + i
          invariant rail == old(rail) && lastDirection == old(lastDirection)
        {
          stepPulses := stepPulses + 1;
          i := i + 1;
        }
        backlashIssued := i;
        assert backlashIssued == BacklashSteps(system.backlashCompensation, rail.stepsPerMm);
      }
      lastDirection := currentDirection;
      var absSteps := AbsInt(steps);
      var i := 0;
      while i < absSteps
        invariant 0 <= i <= absSteps
        invariant stepPulses == pulses0 + backlashIssued + i
        invariant rail == old(rail) && lastDirection == currentDirection
      {
        stepPulses := stepPulses + 1;
        i := i + 1;
      }
      rail := rail.(totalSteps := rail.totalSteps + steps);
    }

    /** move_rail: the not-homed guard, then the move itself. */
    method MoveRail(distanceMm: real)
      requires lastDirection in {-1, 0, 1}
      modifies this`rail, this`lastDirection, this`stepPulses, this`menuChanged, this`warnings
      ensures State() == AfterMove(old(State()), distanceMm)
      ensures DriveState() == RailMoved(old(DriveState()), distanceMm, system.backlashCompensation)
      ensures lastDirection in {-1, 0, 1}
    {
      if !rail.homed && distanceMm != 0.0 {
        warnings := warnings + 1;
        menuChanged := true;
        return;
      }
      ghost var s0 := State();
      MovePermitted(distanceMm);
      PermittedMoveState(s0, State(), distanceMm);
    }

    /** The permitted part of move_rail: the truncated step request, then the clamped position. */
    method MovePermitted(distanceMm: real)
      requires lastDirection in {-1, 0, 1} && !MoveRefused(rail, distanceMm)
      modifies this`rail, this`lastDirection, this`stepPulses
      ensures DriveState() == RailMoved(old(DriveState()), distanceMm, system.backlashCompensation)
      ensures lastDirection in {-1, 0, 1}
    {
      ghost var drive0 := DriveState();
      var steps := RequestedSteps(distanceMm, rail.stepsPerMm);
      MoveRailSteps(steps);
      ghost var stepped := DriveState();
      assert stepped == StepsMoved(drive0, steps, BacklashSteps(system.backlashCompensation, drive0.rail.stepsPerMm));
      var position := rail.currentPositionMm + distanceMm;
      if position < 0.0 {
        position := 0.0;
      }
      if position > rail.maxTravelMm {
        position := rail.maxTravelMm;
      }
      assert position == ClampPosition(drive0.rail.currentPositionMm + distanceMm, drive0.rail.maxTravelMm);
      rail := rail.(currentPositionMm := position);
      RailMovedPermitted(drive0, distanceMm, system.backlashCompensation, stepped, position);
    }

    /** trigger_camera: one trigger pulse, then a redraw request. */
    method TriggerCamera()
      modifies this`cameraTriggers, this`menuChanged
      ensures cameraTriggers == old(cameraTriggers) + 1 && menuChanged
    {
      cameraTriggers := cameraTriggers + 1;
      menuChanged := true;
    }

    /**
     * home_rail: waits for a press (the wait is taken to end), consumes it
     * and makes the current position the zero reference.
     */
    method HomeRail()
      modifies this`rail, this`encoderPressed, this`menuChanged
      ensures rail == old(rail).(currentPositionMm := 0.0, totalSteps := 0, homed := true)
      ensures !encoderPressed && menuChanged
    {
      encoderPressed := false;
      rail := rail.(currentPositionMm := 0.0, totalSteps := 0, homed := true);
      menuChanged := true;
    }

    /** stop_auto_stack. */
    method StopAutoStack()
      modifies this`stackRunning, this`currentMenu, this`menuChanged
      ensures !stackRunning && currentMenu == AutoStack && menuChanged
    {
      stackRunning := false;
      currentMenu := AutoStack;
      menuChanged := true;
    }

    /**
     * start_auto_stack. `confirmArrives` says whether a press comes within
     * the 10 s confirmation window.
     */
    method StartAutoStack(confirmArrives: bool)
      requires lastDirection in {-1, 0, 1}
      modifies this`stack, this`stackRunning, this`currentMenu, this`encoderPressed, this`menuChanged,
               this`rail, this`lastDirection, this`stepPulses, this`warnings
      ensures State() == AfterStart(old(State()), confirmArrives)
    {
      if !rail.homed {
        warnings := warnings + 1;
        menuChanged := true;
        return;
      }
      if stack.totalShots <= 0 {
        warnings := warnings + 1;
        menuChanged := true;
        return;
      }
      if encoderPressed {
        encoderPressed := false;
      } else if !confirmArrives {
        menuChanged := true;
        return;
      }
      BeginStack();
    }

    /** The confirmed part of start_auto_stack: reset the count, show progress, go to the start. */
    method BeginStack()
      requires rail.homed && lastDirection in {-1, 0, 1}
      modifies this`stack, this`stackRunning, this`currentMenu, this`menuChanged,
               this`rail, this`lastDirection, this`stepPulses, this`warnings
      ensures State() == AfterBegin(old(State()))
    {
      ghost var s0 := State();
      stack := stack.(shotsTaken := 0);
      stackRunning := true;
      currentMenu := StackProgress;
      ghost var s1 := State();
      var distanceMm := stack.startPositionMm - rail.currentPositionMm;
      MoveRail(distanceMm);
      menuChanged := true;
      BeginIsMoveFromStarted(s0, s1, State());
    }

    /**
     * auto_stack_task, run to its end. `stop` is the number of shots taken
     * when a stop request (a press during the run) first becomes visible to
     * the task, or None when there is none; the acknowledgement wait after a
     * completed run is taken to end with a press.
     */
    method AutoStackTask(stop: Option<nat>)
      requires Valid() && stackRunning
      modifies this`stack, this`stackRunning, this`currentMenu, this`encoderPressed, this`menuChanged,
               this`rail, this`lastDirection, this`stepPulses, this`warnings, this`cameraTriggers
      ensures Valid()
      ensures !stackRunning && currentMenu == AutoStack && menuChanged
      ensures var n := ShotsRun(old(stack.totalShots), stop);
        && cameraTriggers == old(cameraTriggers) + n
        && n <= old(stack.totalShots)
        && stack == (if n == 0 then old(stack) else old(stack).(shotsTaken := n))
        && var moved := DriveAfterMoves(old(DriveState()), ShotStep(old(stack)),
                                        MovesBetween(n, old(stack.totalShots)), system.backlashCompensation);
           if Completed(old(stack.totalShots), stop) && old(stack.returnToStart) then
             DriveState() == RailMoved(moved, old(stack.startPositionMm) - moved.rail.currentPositionMm,
                                       system.backlashCompensation)
           else
             DriveState() == moved
      ensures Completed(old(stack.totalShots), stop) ==> !encoderPressed
      ensures !Completed(old(stack.totalShots), stop) ==> encoderPressed == old(encoderPressed)
      ensures warnings == old(warnings)
    {
      var stepDistance := ShotStep(stack);
      if stop == Some(0) {
        StopAutoStack();
      }
      var shots := RunShots(stop, stepDistance);
      EndStack();
    }

    /**
     * The shot loop of auto_stack_task: it runs while shots remain and the
     * stack is running, and returns the number of shots taken.
     */
    method RunShots(stop: Option<nat>, stepDistance: real) returns (shot: nat)
      requires rail.homed && lastDirection in {-1, 0, 1} && rail.currentPositionMm >= 0.0
      requires RailValid(rail) && StackValid(stack)
      requires stackRunning <==> (stop.None? || stop.value > 0)
      requires !stackRunning ==> currentMenu == AutoStack && menuChanged
      modifies this`stack, this`stackRunning, this`currentMenu, this`menuChanged,
               this`rail, this`lastDirection, this`stepPulses, this`warnings, this`cameraTriggers
      ensures shot == ShotsRun(old(stack.totalShots), stop)
      ensures stackRunning <==> Completed(old(stack.totalShots), stop)
      ensures !stackRunning ==> currentMenu == AutoStack && menuChanged
      ensures stack == if shot == 0 then old(stack) else old(stack).(shotsTaken := shot)
      ensures cameraTriggers == old(cameraTriggers) + shot && warnings == old(warnings)
      ensures DriveState() == DriveAfterMoves(old(DriveState()), stepDistance,
                                              MovesBetween(shot, old(stack.totalShots)),
                                              system.backlashCompensation)
      ensures rail.homed && lastDirection in {-1, 0, 1} && rail.currentPositionMm >= 0.0
      ensures RailValid(rail) && StackValid(stack)
    {
      ghost var total := stack.totalShots;
      ghost var drive0 := DriveState();
      ghost var stack0 := stack;
      shot := 0;
      while shot < stack.totalShots && stackRunning
        invariant AfterShots(shot, stop, stepDistance, stack0, drive0, old(cameraTriggers), old(warnings))
        decreases total - shot
      {
        NextShot(shot, stop, stepDistance, stack0, drive0, old(cameraTriggers), old(warnings));
        shot := shot + 1;
        if !stackRunning {
          break;
        }
      }
    }

    /** What holds after `shot` passes of the sequencer loop. */
    ghost predicate AfterShots(shot: nat, stop: Option<nat>, stepDistance: real, stack0: StackConfig,
                               drive0: Drive, triggers0: nat, warnings0: nat)
      reads this
    {
      && shot <= stack0.totalShots
      && stack == (if shot == 0 then stack0 else stack0.(shotsTaken := shot))
      && (stackRunning <==> (stop.None? || stop.value > shot))
      && (stop.Some? ==> shot <= stop.value)
      && (!stackRunning ==> currentMenu == AutoStack && menuChanged)
      && cameraTriggers == triggers0 + shot && warnings == warnings0
      && DriveState() == DriveAfterMoves(drive0, stepDistance, MovesBetween(shot, stack0.totalShots),
                                         system.backlashCompensation)
      && RailValid(rail) && StackValid(stack)
      && rail.currentPositionMm >= 0.0 && lastDirection in {-1, 0, 1} && rail.homed
    }

    /** One pass of the sequencer loop: a shot, the move after it, and the stop request if it comes now. */
    method NextShot(shot: nat, stop: Option<nat>, stepDistance: real, ghost stack0: StackConfig,
                    ghost drive0: Drive, ghost triggers0: nat, ghost warnings0: nat)
      requires AfterShots(shot, stop, stepDistance, stack0, drive0, triggers0, warnings0)
      requires shot < stack.totalShots && stackRunning
      modifies this`stack, this`stackRunning, this`currentMenu, this`menuChanged,
               this`rail, this`lastDirection, this`stepPulses, this`warnings, this`cameraTriggers
      ensures AfterShots(shot + 1, stop, stepDistance, stack0, drive0, triggers0, warnings0)
    {
      TakeShot(shot, stepDistance);
      if stop == Some(shot + 1) {
        StopAutoStack();
      }
    }

    /**
     * One pass of the shot loop: trigger, record the count, and move on by
     * one step unless this was the last shot of the plan.
     */
    method TakeShot(shot: int, stepDistance: real)
      requires rail.homed && lastDirection in {-1, 0, 1}
      modifies this`stack, this`cameraTriggers, this`menuChanged,
               this`rail, this`lastDirection, this`stepPulses, this`warnings
      ensures cameraTriggers == old(cameraTriggers) + 1 && menuChanged && warnings == old(warnings)
      ensures stack == old(stack).(shotsTaken := shot + 1)
      ensures shot < stack.totalShots - 1 ==>
        DriveState() == RailMoved(old(DriveState()), stepDistance, system.backlashCompensation)
      ensures shot >= stack.totalShots - 1 ==> DriveState() == old(DriveState())
      ensures lastDirection in {-1, 0, 1}
    {
      TriggerCamera();
      stack := stack.(shotsTaken := shot + 1);
      if shot < stack.totalShots - 1 {
        MoveRail(stepDistance);
      }
    }

    /**
     * The end of auto_stack_task: a run that was not stopped returns to the
     * start position when asked to and waits for an acknowledging press
     * (taken to arrive); every run leaves the stack stopped on AUTO_STACK.
     */
    method EndStack()
      requires rail.homed && lastDirection in {-1, 0, 1}
      modifies this`stackRunning, this`currentMenu, this`encoderPressed, this`menuChanged,
               this`rail, this`lastDirection, this`stepPulses, this`warnings
      ensures !stackRunning && currentMenu == AutoStack && menuChanged && warnings == old(warnings)
      ensures old(stackRunning) && stack.returnToStart ==>
        DriveState() == RailMoved(old(DriveState()), stack.startPositionMm - old(rail.currentPositionMm),
                                  system.backlashCompensation)
      ensures !(old(stackRunning) && stack.returnToStart) ==> DriveState() == old(DriveState())
      ensures old(stackRunning) ==> !encoderPressed
      ensures !old(stackRunning) ==> encoderPressed == old(encoderPressed)
      ensures lastDirection in {-1, 0, 1}
    {
      if stackRunning {
        if stack.returnToStart {
          MoveRail(stack.startPositionMm - rail.currentPositionMm);
        }
        encoderPressed := false;
      }
      stackRunning := false;
      currentMenu := AutoStack;
      menuChanged := true;
    }
  
    /**
     * handle_encoder_rotation(direction). Outside edit mode the selection
     * moves and wraps; in edit mode the selected field of the current screen
     * is edited with its clamp. Every call requests a redraw.
     */
    method HandleRotation(direction: int)
      requires Valid()
      modifies this`menuSelection, this`stack, this`system, this`rail, this`lastDirection,
               this`stepPulses, this`menuChanged, this`warnings
      ensures Valid()
      ensures State() == AfterRotation(old(State()), direction)
    {
      RotationKeepsConsistent(State(), direction);
      var d := direction * system.encoderSensitivity;
      if inEditMode {
        EditSelected(d);
      } else {
        var maxItems := ItemCount(currentMenu);
        menuSelection := menuSelection + d;
        if menuSelection < 0 {
          menuSelection := maxItems - 1;
        }
        if menuSelection >= maxItems {
          menuSelection := 0;
        }
      }
      menuChanged := true;
    }

    /** The edit-mode branch of handle_encoder_rotation. */
    method EditSelected(d: int)
      requires Valid()
      modifies this`stack, this`system, this`rail, this`lastDirection, this`stepPulses,
               this`menuChanged, this`warnings
      ensures State() == AfterEdit(old(State()), d)
    {
      match currentMenu {
        case ManualControl =>
          EditPosition(d);
        case AutoStack =>
          EditStackField(d);
        case Settings =>
          EditSettingsField(d);
        case Calibration =>
          EditCalibrationField(d);
        case _ =>
      }
    }

    /** MANUAL_CONTROL in edit mode: item 0 moves the rail by d steps of the jog size. */
    method EditPosition(d: int)
      requires currentMenu == ManualControl && lastDirection in {-1, 0, 1}
      modifies this`rail, this`lastDirection, this`stepPulses, this`menuChanged, this`warnings
      ensures State() == AfterEdit(old(State()), d)
    {
      if menuSelection == 0 {
        MoveRail(JogDistance(d, rail.stepSizeMicrons));
      }
    }

    /** The AUTO_STACK edits of handle_encoder_rotation, then the shot count is recomputed. */
    method EditStackField(d: int)
      requires StackValid(stack)
      modifies this`stack
      ensures stack == EditStack(old(stack), menuSelection, d)
      ensures StackValid(stack)
    {
      if menuSelection == 0 {
        stack := stack.(startPositionMm := stack.startPositionMm + d as real * 0.1);
      } else if menuSelection == 1 {
        stack := stack.(endPositionMm := stack.endPositionMm + d as real * 0.1);
      } else if menuSelection == 2 {
        stack := stack.(stepSizeMicrons := stack.stepSizeMicrons + d as real * 5.0);
        if stack.stepSizeMicrons < 1.0 {
          stack := stack.(stepSizeMicrons := 1.0);
        }
      } else if menuSelection == 3 {
        stack := stack.(delayMs := stack.delayMs + d * 100);
        if stack.delayMs < 100 {
          stack := stack.(delayMs := 100);
        }
      }
      CalculateStackShots();
    }

    /** The SETTINGS edits of handle_encoder_rotation with their clamps. */
    method EditSettingsField(d: int)
      requires SystemValid(system)
      modifies this`system
      ensures system == EditSettings(old(system), menuSelection, d)
      ensures SystemValid(system)
    {
      if menuSelection == 0 {
        system := system.(lcdBrightness := system.lcdBrightness + d * 5);
        if system.lcdBrightness < 10 {
          system := system.(lcdBrightness := 10);
        }
        if system.lcdBrightness > 100 {
          system := system.(lcdBrightness := 100);
        }
      } else if menuSelection == 1 {
        system := system.(cameraTriggerDuration := system.cameraTriggerDuration + d * 10);
        if system.cameraTriggerDuration < 50 {
          system := system.(cameraTriggerDuration := 50);
        }
      } else if menuSelection == 2 {
        system := system.(settlingTime := system.settlingTime + d * 50);
        if system.settlingTime < 100 {
          system := system.(settlingTime := 100);
        }
      } else if menuSelection == 4 {
        system := system.(backlashCompensation := system.backlashCompensation + d as real * 5.0);
        if system.backlashCompensation < 0.0 {
          system := system.(backlashCompensation := 0.0);
        }
      } else if menuSelection == 5 {
        system := system.(encoderSensitivity := system.encoderSensitivity + d);
        if system.encoderSensitivity < 1 {
          system := system.(encoderSensitivity := 1);
        }
        if system.encoderSensitivity > 10 {
          system := system.(encoderSensitivity := 10);
        }
      }
    }

    /** The CALIBRATION edits of handle_encoder_rotation with their floors. */
    method EditCalibrationField(d: int)
      requires RailValid(rail)
      modifies this`rail
      ensures rail == EditCalibration(old(rail), menuSelection, d)
      ensures RailValid(rail)
    {
      if menuSelection == 0 {
        rail := rail.(stepsPerMm := rail.stepsPerMm + d * 10);
        if rail.stepsPerMm < 100 {
          rail := rail.(stepsPerMm := 100);
        }
      } else if menuSelection == 1 {
        rail := rail.(maxTravelMm := rail.maxTravelMm + d as real * 1.0);
        if rail.maxTravelMm < 10.0 {
          rail := rail.(maxTravelMm := 10.0);
        }
      } else if menuSelection == 2 {
        rail := rail.(stepSizeMicrons := rail.stepSizeMicrons + d as real * 0.1);
        if rail.stepSizeMicrons < 0.1 {
          rail := rail.(stepSizeMicrons := 0.1);
        }
      }
    }

    /**
     * handle_encoder_press at time `now`. `confirmArrives` stands for a
     * press arriving within start_auto_stack's confirmation window.
     */
    method HandlePress(now: U32, confirmArrives: bool)
      requires Valid()
      modifies this`currentMenu, this`menuSelection, this`inEditMode, this`stack, this`system, this`rail,
               this`lastDirection, this`stepPulses, this`menuChanged, this`warnings, this`stackRunning,
               this`encoderPressed, this`cameraTriggers, this`lastPressTime
      ensures Valid()
      ensures State() == AfterPress(old(State()), now, confirmArrives)
    {
      PressKeepsConsistent(State(), now, confirmArrives);
      if Elapsed(now, lastPressTime) < PressDebounceMs {
        return;
      }
      lastPressTime := now;
      if stackRunning {
        StopAutoStack();
        return;
      }
      DispatchPress(confirmArrives);
    }

    /** The switch of handle_encoder_press on the current screen; every branch ends with a redraw request. */
    method DispatchPress(confirmArrives: bool)
      requires lastDirection in {-1, 0, 1}
      modifies this`currentMenu, this`menuSelection, this`inEditMode, this`stack, this`system, this`rail,
               this`lastDirection, this`stepPulses, this`menuChanged, this`warnings, this`stackRunning,
               this`encoderPressed, this`cameraTriggers
      ensures State() == AfterAction(old(State()), confirmArrives)
    {
      match currentMenu {
        case Main =>
          PressOnMain(confirmArrives);
        case ManualControl =>
          PressOnManualControl(confirmArrives);
        case AutoStack =>
          PressOnAutoStack(confirmArrives);
        case Settings =>
          PressOnSettings(confirmArrives);
        case Calibration =>
          PressOnCalibration(confirmArrives);
        case StackProgress =>
          PressOnProgress(confirmArrives);
        case Advanced =>
          PressOnAdvanced(confirmArrives);
      }
    }

    /** MAIN: items 0..4 open their screens. */
    method PressOnMain(confirmArrives: bool)
      requires currentMenu == Main
      modifies this`currentMenu, this`menuSelection, this`menuChanged
      ensures State() == AfterAction(old(State()), confirmArrives)
    {
      if 0 <= menuSelection < 5 {
        currentMenu := MainTarget(menuSelection);
        menuSelection := 0;
      }
      menuChanged := true;
    }

    /** MANUAL_CONTROL: edit the position, home the rail, take a photo. */
    method PressOnManualControl(confirmArrives: bool)
      requires currentMenu == ManualControl
      modifies this`inEditMode, this`rail, this`encoderPressed, this`cameraTriggers, this`menuChanged
      ensures State() == AfterAction(old(State()), confirmArrives)
    {
      if menuSelection == 0 {
        inEditMode := !inEditMode;
      } else if menuSelection == 3 {
        HomeRail();
      } else if menuSelection == 4 {
        TriggerCamera();
      }
      menuChanged := true;
    }

    /** AUTO_STACK: edit items 0..3, start the stack, set the start or end here. */
    method PressOnAutoStack(confirmArrives: bool)
      requires currentMenu == AutoStack && lastDirection in {-1, 0, 1}
      modifies this`inEditMode, this`stack, this`stackRunning, this`currentMenu, this`encoderPressed,
               this`menuChanged, this`rail, this`lastDirection, this`stepPulses, this`warnings
      ensures State() == AfterAction(old(State()), confirmArrives)
    {
      if 0 <= menuSelection <= 3 {
        inEditMode := !inEditMode;
      } else if menuSelection == 5 {
        PressStartStack(confirmArrives);
        return;
      } else if menuSelection == 6 || menuSelection == 7 {
        PressMarkHere(confirmArrives);
        return;
      }
      menuChanged := true;
    }

    /** AUTO_STACK item 5: start the stack. */
    method PressStartStack(confirmArrives: bool)
      requires currentMenu == AutoStack && menuSelection == 5 && lastDirection in {-1, 0, 1}
      modifies this`stack, this`stackRunning, this`currentMenu, this`encoderPressed,
               this`menuChanged, this`rail, this`lastDirection, this`stepPulses, this`warnings
      ensures State() == AfterAction(old(State()), confirmArrives)
    {
      ghost var s0 := State();
      StartAutoStack(confirmArrives);
      menuChanged := true;
      StartActionRedraws(s0, confirmArrives);
    }

    /** AUTO_STACK items 6 and 7: the current position becomes the start or the end, then the count is recomputed. */
    method PressMarkHere(confirmArrives: bool)
      requires currentMenu == AutoStack && menuSelection in {6, 7}
      modifies this`stack, this`menuChanged
      ensures State() == AfterAction(old(State()), confirmArrives)
    {
      if menuSelection == 6 {
        stack := stack.(startPositionMm := rail.currentPositionMm);
      } else {
        stack := stack.(endPositionMm := rail.currentPositionMm);
      }
      CalculateStackShots();
      menuChanged := true;
    }

    /** SETTINGS: edit the numeric items, toggle the beep; saving has no modelled effect. */
    method PressOnSettings(confirmArrives: bool)
      requires currentMenu == Settings
      modifies this`inEditMode, this`system, this`menuChanged
      ensures State() == AfterAction(old(State()), confirmArrives)
    {
      if menuSelection in {0, 1, 2, 4, 5} {
        inEditMode := !inEditMode;
      } else if menuSelection == 3 {
        system := system.(beepEnabled := !system.beepEnabled);
      }
      menuChanged := true;
    }

    /** CALIBRATION: edit items 0..2, the two test moves, reset the position, back to MAIN. */
    method PressOnCalibration(confirmArrives: bool)
      requires currentMenu == Calibration && lastDirection in {-1, 0, 1}
      modifies this`inEditMode, this`rail, this`lastDirection, this`stepPulses, this`warnings,
               this`currentMenu, this`menuSelection, this`menuChanged
      ensures State() == AfterAction(old(State()), confirmArrives)
    {
      if 0 <= menuSelection <= 2 {
        inEditMode := !inEditMode;
      } else if menuSelection == 3 || menuSelection == 4 {
        PressTestMove(confirmArrives);
        return;
      } else if menuSelection == 5 {
        rail := rail.(currentPositionMm := 0.0, totalSteps := 0);
      } else if menuSelection == 6 {
        currentMenu := Main;
        menuSelection := 0;
      }
      menuChanged := true;
    }

    /** STACK_PROGRESS: a press stops the stack. */
    method PressOnProgress(confirmArrives: bool)
      requires currentMenu == StackProgress
      modifies this`stackRunning, this`currentMenu, this`menuChanged
      ensures State() == AfterAction(old(State()), confirmArrives)
    {
      StopAutoStack();
    }

    /** ADVANCED: a press returns to MAIN. */
    method PressOnAdvanced(confirmArrives: bool)
      requires currentMenu == Advanced
      modifies this`currentMenu, this`menuSelection, this`menuChanged
      ensures State() == AfterAction(old(State()), confirmArrives)
    {
      currentMenu := Main;
      menuSelection := 0;
      menuChanged := true;
    }

    /** CALIBRATION items 3 and 4: test moves of 1 mm and 10 mm. */
    method PressTestMove(confirmArrives: bool)
      requires currentMenu == Calibration && menuSelection in {3, 4} && lastDirection in {-1, 0, 1}
      modifies this`rail, this`lastDirection, this`stepPulses, this`warnings, this`menuChanged
      ensures State() == AfterAction(old(State()), confirmArrives)
    {
      ghost var s0 := State();
      var distanceMm := if menuSelection == 3 then 1.0 else 10.0;
      MoveRail(distanceMm);
      menuChanged := true;
      TestMoveAction(s0, confirmArrives, distanceMm);
    }

    /**
     * One pass of menu_task's loop: draw the screen if a redraw was
     * requested, apply a pending rotation, handle a pending press (the
     * flag cleared first), then the position and progress refreshes.
     */
    method MenuTaskIteration(now: U32, confirmArrives: bool)
      requires Valid()
      modifies this
      ensures Valid()
      ensures State() == AfterIteration(old(State()), now, confirmArrives)
    {
      ghost var s0 := State();
      Redraw();
      ghost var s1 := State();
      ReadCounter();
      ghost var s2 := State();
      PressStep(now, confirmArrives);
      ghost var s3 := State();
      Refresh();
      IterationComposes(s0, s1, s2, s3, State(), now, confirmArrives);
    }

    /** The first step of menu_task: draw the current screen when a redraw was requested. */
    method Redraw()
      requires Valid()
      modifies this`redraws, this`menuChanged
      ensures Valid()
      ensures State() == AfterRedraw(old(State()))
    {
      if menuChanged {
        redraws := redraws + [currentMenu];
        menuChanged := false;
      }
    }

    /** The press step of menu_task, with the flag cleared before the handler runs. */
    method PressStep(now: U32, confirmArrives: bool)
      requires Valid()
      modifies this`currentMenu, this`menuSelection, this`inEditMode, this`stack, this`system, this`rail,
               this`lastDirection, this`stepPulses, this`menuChanged, this`warnings, this`stackRunning,
               this`encoderPressed, this`cameraTriggers, this`lastPressTime
      ensures Valid()
      ensures State() == AfterConfirmedPressStep(old(State()), now, confirmArrives)
    {
      if encoderPressed {
        encoderPressed := false;
        HandlePress(now, confirmArrives);
      }
    }

    /** The rotation step of menu_task. */
    method ReadCounter()
      requires Valid()
      modifies this`menuSelection, this`stack, this`system, this`rail, this`lastDirection,
               this`stepPulses, this`menuChanged, this`warnings, this`encoderCounter
      ensures Valid()
      ensures State() == AfterCounter(old(State()))
    {
      if encoderCounter != 0 {
        HandleRotation(if encoderCounter > 0 then 1 else -1);
        encoderCounter := 0;
      }
    }

    /** The refresh steps of menu_task: the manual screen's position check, the progress redraw. */
    method Refresh()
      requires Valid()
      modifies this`lastShownPosition, this`menuChanged, this`redraws
      ensures Valid()
      ensures State() == AfterRefresh(old(State()))
    {
      if currentMenu == ManualControl {
        UpdatePositionDisplay();
      }
      if stackRunning && currentMenu == StackProgress {
        redraws := redraws + [StackProgress];
      }
    }

    /**
     * encoder_isr at time `now` with the two encoder lines read as `clk`
     * and `dt`: within 5 ms of the last accepted interrupt nothing happens;
     * otherwise the time is recorded and the counter steps up when the
     * lines differ and down when they agree.
     */
    method EncoderIsr(now: U32, clk: bool, dt: bool)
      modifies this`lastEncoderTime, this`encoderCounter
      ensures Elapsed(now, old(lastEncoderTime)) < RotationDebounceMs ==>
        lastEncoderTime == old(lastEncoderTime) && encoderCounter == old(encoderCounter)
      ensures Elapsed(now, old(lastEncoderTime)) >= RotationDebounceMs ==>
        lastEncoderTime == now && encoderCounter == old(encoderCounter) + (if clk != dt then 1 else -1)
    {
      if Elapsed(now, lastEncoderTime) < RotationDebounceMs {
        return;
      }
      lastEncoderTime := now;
      if clk != dt {
        encoderCounter := encoderCounter + 1;
      } else {
        encoderCounter := encoderCounter - 1;
      }
    }

    /** encoder_sw_isr: a low switch line (`level == 0`) flags a press; nothing ever clears it here. */
    method EncoderSwIsr(level: int)
      modifies this`encoderPressed
      ensures encoderPressed == (old(encoderPressed) || level == 0)
    {
      if level == 0 {
        encoderPressed := true;
      }
    }

    /** update_position_display: a redraw when the position moved by more than 0.001 mm since the last one shown. */
    method UpdatePositionDisplay()
      modifies this`lastShownPosition, this`menuChanged
      ensures Abs(rail.currentPositionMm - old(lastShownPosition)) > PositionRedrawMm ==>
        lastShownPosition == rail.currentPositionMm && menuChanged
      ensures Abs(rail.currentPositionMm - old(lastShownPosition)) <= PositionRedrawMm ==>
        lastShownPosition == old(lastShownPosition) && menuChanged == old(menuChanged)
    {
      if Abs(rail.currentPositionMm - lastShownPosition) > PositionRedrawMm {
        lastShownPosition := rail.currentPositionMm;
        menuChanged := true;
      }
    }
}
}
