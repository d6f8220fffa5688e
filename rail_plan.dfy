/**
 * The macro-rail controller's records and the pure rules behind its
 * handlers: shot planning, axis bookkeeping, menu navigation and the
 * per-screen edits with their clamps. The controller class in
 * rail_controller.dfy is proved against these functions.
 */
module RailPlan {
  import opened CArith

  /** The seven screens of the menu, in the order of their enum values. */
  datatype Screen = Main | ManualControl | AutoStack | Settings | Calibration | StackProgress | Advanced

  /** The axis record: positions in millimetres, the step count since homing. */
  datatype RailConfig = RailConfig(
    stepSizeMicrons: real,
    maxTravelMm: real,
    currentPositionMm: real,
    totalSteps: int,
    stepsPerMm: int,
    homed: bool)

  /** The focus-stack plan and its progress. */
  datatype StackConfig = StackConfig(
    startPositionMm: real,
    endPositionMm: real,
    stepSizeMicrons: real,
    totalShots: int,
    shotsTaken: int,
    delayMs: int,
    reverseDirection: bool,
    returnToStart: bool)

  /** The user settings. */
  datatype SystemConfig = SystemConfig(
    lcdBrightness: int,
    cameraTriggerDuration: int,
    settlingTime: int,
    beepEnabled: bool,
    backlashCompensation: real,
    encoderSensitivity: int)

  // ---------------------------------------------------------------------
  // Ranges that the edits maintain (they hold of the boot defaults too)

  ghost predicate RailValid(r: RailConfig) {
    r.stepSizeMicrons >= 0.1 && r.maxTravelMm >= 10.0 && r.stepsPerMm >= 100
  }

  ghost predicate StackValid(s: StackConfig) {
    s.stepSizeMicrons >= 1.0 && s.delayMs >= 100 && s.totalShots >= 0
  }

  ghost predicate SystemValid(c: SystemConfig) {
    && 10 <= c.lcdBrightness <= 100
    && c.cameraTriggerDuration >= 50
    && c.settlingTime >= 100
    && c.backlashCompensation >= 0.0
    && 1 <= c.encoderSensitivity <= 10
  }

  // ---------------------------------------------------------------------
  // Shot planning

  /**
   * The number of shots for a stack from `start` to `end` with a step of
   * `stepMicrons`: the truncated quotient of the distance by the step in
   * millimetres, plus one; zero when the distance or the step is not positive.
   */
  function TotalShots(start: real, end: real, stepMicrons: real): (n: int)
    ensures n >= 0
    ensures n == 0 <==> start == end || stepMicrons <= 0.0
  {
    var distance := Abs(end - start);
    var stepDistance := stepMicrons / 1000.0;
    if distance > 0.0 && stepDistance > 0.0 then Trunc(distance / stepDistance) + 1 else 0
  }

  /**
   * A nonzero shot count n is the one for which n - 1 steps fit into the
   * distance and n steps do not: the shots cover the range with the last
   * step falling short of (or on) the far end.
   */
  lemma TotalShotsCoversRange(start: real, end: real, stepMicrons: real)
    ensures var n := TotalShots(start, end, stepMicrons);
      n > 0 ==>
        (n - 1) as real * (stepMicrons / 1000.0) <= Abs(end - start) < n as real * (stepMicrons / 1000.0)
  {
    var distance := Abs(end - start);
    var stepDistance := stepMicrons / 1000.0;
    if distance > 0.0 && stepDistance > 0.0 {
      QuotientBounds(distance, stepDistance);
    }
  }

  /** k = trunc(d / s) satisfies k * s <= d < (k + 1) * s. */
  lemma QuotientBounds(d: real, s: real)
    requires d > 0.0 && s > 0.0
    ensures Trunc(d / s) as real * s <= d < (Trunc(d / s) + 1) as real * s
  {
    var q := d / s;
    assert q > 0.0;
    var k := Trunc(q);
    assert (k + 1) as real == k as real + 1.0;
    ScaleBounds(q, k as real, s);
    DivTimes(d, s);
    assert (k + 1) as real * s == (k as real + 1.0) * s;
    calc {
      d;
    ==
      q * s;
    <
      (k as real + 1.0) * s;
    ==
      (k + 1) as real * s;
    }
  }

  lemma DivTimes(d: real, s: real)
    requires s > 0.0
    ensures d / s * s == d
  {
  }

  lemma ScaleBounds(q: real, k: real, s: real)
    requires k <= q < k + 1.0 && s > 0.0
    ensures k * s <= q * s < (k + 1.0) * s
  {
    assert q * s - k * s == (q - k) * s;
    assert (k + 1.0) * s - q * s == (k + 1.0 - q) * s;
  }

  /** calculate_stack_shots as a function of the plan: only total_shots changes. */
  function Recalculated(s: StackConfig): (r: StackConfig)
    ensures r == s.(totalShots := r.totalShots)
    ensures r.totalShots == TotalShots(s.startPositionMm, s.endPositionMm, s.stepSizeMicrons)
  {
    s.(totalShots := TotalShots(s.startPositionMm, s.endPositionMm, s.stepSizeMicrons))
  }

  /** Recomputing with unchanged inputs gives the same plan. */
  lemma RecalculateIdempotent(s: StackConfig)
    ensures Recalculated(Recalculated(s)) == Recalculated(s)
  {
  }

  /** The boot plan, 0 mm to 10 mm in 50 um steps, holds 201 shots. */
  lemma DefaultPlanShots()
    ensures TotalShots(0.0, 10.0, 50.0) == 201
  {
    assert 10.0 / (50.0 / 1000.0) == 200.0;
  }

  // ---------------------------------------------------------------------
  // Axis bookkeeping

  /** The logical position after a move: raised to 0, then lowered to the travel limit. */
  function ClampPosition(p: real, maxTravel: real): (c: real)
    ensures maxTravel >= 0.0 ==> 0.0 <= c <= maxTravel
    ensures 0.0 <= p <= maxTravel ==> c == p
    ensures p < 0.0 && maxTravel >= 0.0 ==> c == 0.0
    ensures p > maxTravel && p >= 0.0 ==> c == maxTravel
  {
    var raised := if p < 0.0 then 0.0 else p;
    if raised > maxTravel then maxTravel else raised
  }

  /** A MANUAL_CONTROL jog of `d` encoder steps, each the rail's jog size in micrometres, in millimetres. */
  function JogDistance(d: int, stepSizeMicrons: real): real {
    d as real * stepSizeMicrons / 1000.0
  }

  /** The signed step count a move of `distanceMm` asks for. */
  function RequestedSteps(distanceMm: real, stepsPerMm: int): int {
    Trunc(distanceMm * stepsPerMm as real)
  }

  /** Whether move_rail refuses the move (the "RAIL NOT HOMED" warning). */
  predicate MoveRefused(r: RailConfig, distanceMm: real) {
    !r.homed && distanceMm != 0.0
  }

  /** The axis record after move_rail(distanceMm). */
  function RailAfterMove(r: RailConfig, distanceMm: real): (r': RailConfig)
    ensures MoveRefused(r, distanceMm) ==> r' == r
    ensures !MoveRefused(r, distanceMm) ==>
      && r'.totalSteps == r.totalSteps + RequestedSteps(distanceMm, r.stepsPerMm)
      && r'.currentPositionMm == ClampPosition(r.currentPositionMm + distanceMm, r.maxTravelMm)
    ensures r'.homed == r.homed && r'.stepsPerMm == r.stepsPerMm
    ensures r'.maxTravelMm == r.maxTravelMm && r'.stepSizeMicrons == r.stepSizeMicrons
  {
    if MoveRefused(r, distanceMm) then r
    else r.(currentPositionMm := ClampPosition(r.currentPositionMm + distanceMm, r.maxTravelMm),
            totalSteps := r.totalSteps + RequestedSteps(distanceMm, r.stepsPerMm))
  }

  function Sign(steps: int): int {
    if steps > 0 then 1 else -1
  }

  /** The pulses the backlash loop issues: the truncated product, none when it is not positive. */
  function BacklashSteps(backlashMicrons: real, stepsPerMm: int): (n: nat)
    ensures backlashMicrons >= 0.0 && stepsPerMm >= 0 ==>
      n == Trunc(backlashMicrons * stepsPerMm as real / 1000.0)
  {
    var t := Trunc(backlashMicrons * stepsPerMm as real / 1000.0);
    if t < 0 then 0 else t
  }

  /**
   * Pulses that move_rail_steps(steps) issues when the previous nonzero
   * request had direction `lastDirection` (0 before the first one): the
   * backlash take-up only on a reversal, then |steps|.
   */
  function PulsesForSteps(lastDirection: int, steps: int, backlash: nat): (n: nat)
    ensures steps == 0 ==> n == 0
    ensures steps != 0 && (lastDirection == 0 || lastDirection == Sign(steps)) ==> n == AbsInt(steps)
    ensures steps != 0 && lastDirection != 0 && lastDirection != Sign(steps) ==> n == AbsInt(steps) + backlash
  {
    if steps == 0 then 0
    else if lastDirection != 0 && lastDirection != Sign(steps) then backlash + AbsInt(steps)
    else AbsInt(steps)
  }

  /**
   * The worked reversal: +100 steps then -50 steps with 25 um of backlash at
   * 1600 steps/mm issues 100 + (40 + 50) pulses, while total_steps ends at +50.
   */
  lemma BacklashOnReversalExample()
    ensures BacklashSteps(25.0, 1600) == 40
    ensures PulsesForSteps(0, 100, 40) == 100
    ensures PulsesForSteps(Sign(100), -50, 40) == 90
    ensures 0 + 100 + -50 == 50
  {
    assert 25.0 * 1600.0 / 1000.0 == 40.0;
  }

  /**
   * A move of a distance below one step while homed changes the logical
   * position but issues no pulse and leaves total_steps alone.
   */
  lemma SubStepMoveOnlyShiftsPosition(r: RailConfig, d: real)
    requires r.homed && r.stepsPerMm > 0 && d > 0.0 && d * r.stepsPerMm as real < 1.0
    requires 0.0 <= r.currentPositionMm && r.currentPositionMm + d <= r.maxTravelMm
    ensures RailAfterMove(r, d).totalSteps == r.totalSteps
    ensures RailAfterMove(r, d).currentPositionMm == r.currentPositionMm + d
    ensures PulsesForSteps(0, RequestedSteps(d, r.stepsPerMm), 0) == 0
  {
    var p := d * r.stepsPerMm as real;
    assert p > 0.0 by {
      ScaleBounds(d, 0.0, r.stepsPerMm as real);
    }
    assert Trunc(p) == 0;
  }

  /**
   * The axis as move_rail_steps sees it: the rail record, the direction of
   * the previous nonzero request (its function-static `last_direction`) and
   * the number of step pulses issued so far.
   */
  datatype Drive = Drive(rail: RailConfig, lastDirection: int, pulses: nat)

  /** move_rail_steps(steps): backlash pulses on a reversal, |steps| pulses, total_steps += steps. */
  function StepsMoved(dr: Drive, steps: int, backlash: nat): (r: Drive)
    ensures r.rail == dr.rail.(totalSteps := dr.rail.totalSteps + steps)
    ensures r.pulses == dr.pulses + PulsesForSteps(dr.lastDirection, steps, backlash)
    ensures r.lastDirection == if steps == 0 then dr.lastDirection else Sign(steps)
  {
    if steps == 0 then dr
    else Drive(dr.rail.(totalSteps := dr.rail.totalSteps + steps), Sign(steps),
               dr.pulses + PulsesForSteps(dr.lastDirection, steps, backlash))
  }

  /** move_rail(distanceMm) with `backlashMicrons` of compensation configured. */
  function RailMoved(dr: Drive, distanceMm: real, backlashMicrons: real): (r: Drive)
    ensures r.rail == RailAfterMove(dr.rail, distanceMm)
    ensures MoveRefused(dr.rail, distanceMm) ==> r == dr
    ensures dr.lastDirection in {-1, 0, 1} ==> r.lastDirection in {-1, 0, 1}
  {
    if MoveRefused(dr.rail, distanceMm) then dr
    else
      var stepped := StepsMoved(dr, RequestedSteps(distanceMm, dr.rail.stepsPerMm),
                                BacklashSteps(backlashMicrons, dr.rail.stepsPerMm));
      stepped.(rail := stepped.rail.(currentPositionMm :=
                         ClampPosition(dr.rail.currentPositionMm + distanceMm, dr.rail.maxTravelMm)))
  }

  /** The permitted case of move_rail, spelled out step by step. */
  lemma RailMovedPermitted(dr: Drive, distanceMm: real, backlashMicrons: real, stepped: Drive, position: real)
    requires !MoveRefused(dr.rail, distanceMm)
    requires stepped == StepsMoved(dr, RequestedSteps(distanceMm, dr.rail.stepsPerMm),
                                   BacklashSteps(backlashMicrons, dr.rail.stepsPerMm))
    requires position == ClampPosition(dr.rail.currentPositionMm + distanceMm, dr.rail.maxTravelMm)
    ensures RailMoved(dr, distanceMm, backlashMicrons) == stepped.(rail := stepped.rail.(currentPositionMm := position))
  {
  }

  /**
   * A permitted move changes total_steps by exactly the truncated request
   * and issues that many pulses plus, only on a reversal after an earlier
   * nonzero request, the backlash take-up, which total_steps does not count.
   */
  lemma PermittedMoveAccounting(dr: Drive, distanceMm: real, backlashMicrons: real)
    requires !MoveRefused(dr.rail, distanceMm)
    ensures var steps := RequestedSteps(distanceMm, dr.rail.stepsPerMm);
      var r := RailMoved(dr, distanceMm, backlashMicrons);
      && r.rail.totalSteps == dr.rail.totalSteps + steps
      && r.pulses == dr.pulses + AbsInt(steps) +
           (if steps != 0 && dr.lastDirection != 0 && dr.lastDirection != Sign(steps)
            then BacklashSteps(backlashMicrons, dr.rail.stepsPerMm) else 0)
      && (r.rail.maxTravelMm >= 0.0 ==> 0.0 <= r.rail.currentPositionMm <= r.rail.maxTravelMm)
  {
  }

  /** `m` equal moves of `stepMm`, as the sequencer makes between shots. */
  function DriveAfterMoves(dr: Drive, stepMm: real, m: nat, backlashMicrons: real): (r: Drive)
    decreases m
  {
    if m == 0 then dr
    else RailMoved(DriveAfterMoves(dr, stepMm, m - 1, backlashMicrons), stepMm, backlashMicrons)
  }

  /**
   * Repeated moves keep the calibration and the homed flag, keep the
   * position in [0, max_travel] once it starts there, and never forget the
   * pulses already issued; an unhomed rail does not move at all.
   */
  lemma {:induction false} DriveAfterMovesKeeps(dr: Drive, stepMm: real, m: nat, backlashMicrons: real)
    requires dr.rail.maxTravelMm >= 0.0
    requires 0.0 <= dr.rail.currentPositionMm <= dr.rail.maxTravelMm
    ensures var r := DriveAfterMoves(dr, stepMm, m, backlashMicrons);
      && r.rail.homed == dr.rail.homed
      && r.rail.stepsPerMm == dr.rail.stepsPerMm
      && r.rail.maxTravelMm == dr.rail.maxTravelMm
      && 0.0 <= r.rail.currentPositionMm <= r.rail.maxTravelMm
      && r.pulses >= dr.pulses
      && (!dr.rail.homed && stepMm != 0.0 ==> r == dr)
    decreases m
  {
    if m > 0 {
      DriveAfterMovesKeeps(dr, stepMm, m - 1, backlashMicrons);
    }
  }

  /** `p + m * step`, written as m additions of the step as the sequencer performs them. */
  function AdvancedBy(p: real, stepMm: real, m: nat): (q: real)
    decreases m
  {
    if m == 0 then p else AdvancedBy(p, stepMm, m - 1) + stepMm
  }

  lemma {:induction false} AdvancedIsProduct(p: real, stepMm: real, m: nat)
    ensures AdvancedBy(p, stepMm, m) == p + m as real * stepMm
    decreases m
  {
    if m > 0 {
      AdvancedIsProduct(p, stepMm, m - 1);
      assert m as real * stepMm == (m - 1) as real * stepMm + stepMm;
    }
  }

  lemma {:induction false} AdvancedMonotone(p: real, stepMm: real, m: nat)
    requires stepMm >= 0.0
    ensures m > 0 ==> AdvancedBy(p, stepMm, m - 1) <= AdvancedBy(p, stepMm, m)
    ensures AdvancedBy(p, stepMm, m) >= p
    decreases m
  {
    if m > 0 {
      AdvancedMonotone(p, stepMm, m - 1);
    }
  }

  /**
   * With equal positive steps and no clamping, the sequencer's moves only
   * advance: the position after m moves is start + m * step.
   */
  lemma DriveAfterMovesAdvance(dr: Drive, stepMm: real, m: nat, backlashMicrons: real)
    requires dr.rail.homed && stepMm >= 0.0
    requires 0.0 <= dr.rail.currentPositionMm
    requires dr.rail.currentPositionMm + m as real * stepMm <= dr.rail.maxTravelMm
    ensures DriveAfterMoves(dr, stepMm, m, backlashMicrons).rail.currentPositionMm
            == dr.rail.currentPositionMm + m as real * stepMm
  {
    AdvancedIsProduct(dr.rail.currentPositionMm, stepMm, m);
    DriveAfterMovesAdvanceBy(dr, stepMm, m, backlashMicrons);
  }

  lemma {:induction false} DriveAfterMovesAdvanceBy(dr: Drive, stepMm: real, m: nat, backlashMicrons: real)
    requires dr.rail.homed && stepMm >= 0.0
    requires 0.0 <= dr.rail.currentPositionMm
    requires AdvancedBy(dr.rail.currentPositionMm, stepMm, m) <= dr.rail.maxTravelMm
    ensures DriveAfterMoves(dr, stepMm, m, backlashMicrons).rail.currentPositionMm
            == AdvancedBy(dr.rail.currentPositionMm, stepMm, m)
    decreases m
  {
    if m > 0 {
      AdvancedMonotone(dr.rail.currentPositionMm, stepMm, m);
      DriveAfterMovesAdvanceBy(dr, stepMm, m - 1, backlashMicrons);
      DriveAfterMovesKeeps(dr, stepMm, m - 1, backlashMicrons);
      OneMoreStep(DriveAfterMoves(dr, stepMm, m - 1, backlashMicrons), stepMm, backlashMicrons);
    }
  }

  lemma OneMoreStep(prev: Drive, stepMm: real, backlashMicrons: real)
    requires prev.rail.homed && stepMm >= 0.0 && 0.0 <= prev.rail.currentPositionMm
    requires prev.rail.currentPositionMm + stepMm <= prev.rail.maxTravelMm
    ensures RailMoved(prev, stepMm, backlashMicrons).rail.currentPositionMm
            == prev.rail.currentPositionMm + stepMm
  {
  }

  // ---------------------------------------------------------------------
  // Menu navigation

  /** Items per screen: 5, 5, 8, 7, 7, 1 and 7. */
  function ItemCount(s: Screen): (n: nat)
    ensures 1 <= n <= 8
  {
    match s
    case Main => 5
    case ManualControl => 5
    case AutoStack => 8
    case Settings => 7
    case Calibration => 7
    case StackProgress => 1
    case Advanced => 7
  }

  /** The selection after a rotation of `delta` outside edit mode. */
  function NextSelection(selection: int, delta: int, count: int): (r: int)
    requires count >= 1
    ensures 0 <= r < count
    ensures 0 <= selection + delta < count ==> r == selection + delta
    ensures selection + delta < 0 ==> r == count - 1
    ensures selection + delta >= count ==> r == 0
  {
    var s := selection + delta;
    if s < 0 then count - 1 else if s >= count then 0 else s
  }

  /** The screen item i of MAIN opens. */
  function MainTarget(i: int): Screen
    requires 0 <= i < 5
  {
    [ManualControl, AutoStack, Settings, Calibration, Advanced][i]
  }

  /** What a press does on a screen and item, outside a running stack. */
  datatype PressAction =
    | NoAction
    | ToggleEdit
    | OpenScreen(target: Screen)
    | HomeRail
    | TakePhoto
    | StartStack
    | StartHere
    | EndHere
    | ToggleBeep
    | SaveSettings
    | TestMove(distanceMm: real)
    | ResetPosition
    | StopStack

  function ActionFor(screen: Screen, selection: int): (a: PressAction)
    ensures a.OpenScreen? ==>
      || (screen == Main && 0 <= selection < 5 && a.target == MainTarget(selection))
      || (a.target == Main && (screen == Advanced || (screen == Calibration && selection == 6)))
    ensures screen == StackProgress <==> a == StopStack
    ensures a.TestMove? ==> screen == Calibration && a.distanceMm in {1.0, 10.0}
  {
    match screen
    case Main =>
      if 0 <= selection < 5 then OpenScreen(MainTarget(selection)) else NoAction
    case ManualControl =>
      if selection == 0 then ToggleEdit
      else if selection == 3 then HomeRail
      else if selection == 4 then TakePhoto
      else NoAction
    case AutoStack =>
      if 0 <= selection <= 3 then ToggleEdit
      else if selection == 5 then StartStack
      else if selection == 6 then StartHere
      else if selection == 7 then EndHere
      else NoAction
    case Settings =>
      if selection in {0, 1, 2, 4, 5} then ToggleEdit
      else if selection == 3 then ToggleBeep
      else if selection == 6 then SaveSettings
      else NoAction
    case Calibration =>
      if 0 <= selection <= 2 then ToggleEdit
      else if selection == 3 then TestMove(1.0)
      else if selection == 4 then TestMove(10.0)
      else if selection == 5 then ResetPosition
      else if selection == 6 then OpenScreen(Main)
      else NoAction
    case StackProgress => StopStack
    case Advanced => OpenScreen(Main)
  }

  /** The items that edit-mode rotation has a rule for. */
  predicate Editable(screen: Screen, selection: int) {
    match screen
    case ManualControl => selection == 0
    case AutoStack => 0 <= selection <= 3
    case Settings => selection in {0, 1, 2, 4, 5}
    case Calibration => 0 <= selection <= 2
    case _ => false
  }

  /**
   * A press toggles edit mode exactly on the items that rotation can edit,
   * and rotation in edit mode on any other item leaves the records as they
   * were (apart from the shot count being recomputed on AUTO_STACK).
   */
  lemma ToggleEditMatchesEditRules(screen: Screen, selection: int, d: int,
                                   s: StackConfig, c: SystemConfig, r: RailConfig)
    ensures ActionFor(screen, selection) == ToggleEdit <==> Editable(screen, selection)
    ensures screen == AutoStack && !Editable(screen, selection) ==> EditStack(s, selection, d) == Recalculated(s)
    ensures screen == Settings && !Editable(screen, selection) ==> EditSettings(c, selection, d) == c
    ensures screen == Calibration && !Editable(screen, selection) ==> EditCalibration(r, selection, d) == r
  {
  }

  // ---------------------------------------------------------------------
  // Edit-mode rotation, per screen; `d` is the rotation already scaled by
  // the encoder sensitivity

  /**
   * AUTO_STACK edits: positions by 0.1 mm, step by 5 um (floor 1), delay
   * by 100 ms (floor 100); the edited field is the only input that
   * changes, and the shot count is then recomputed.
   */
  function EditStack(s: StackConfig, selection: int, d: int): (r: StackConfig)
    ensures StackValid(s) ==> StackValid(r)
    ensures r.totalShots == TotalShots(r.startPositionMm, r.endPositionMm, r.stepSizeMicrons)
    ensures r.stepSizeMicrons >= 1.0 || r.stepSizeMicrons == s.stepSizeMicrons
    ensures selection == 0 ==> r == s.(startPositionMm := r.startPositionMm, totalShots := r.totalShots)
    ensures selection == 0 ==> r.startPositionMm == s.startPositionMm + d as real * 0.1
    ensures selection == 1 ==> r == s.(endPositionMm := r.endPositionMm, totalShots := r.totalShots)
    ensures selection == 1 ==> r.endPositionMm == s.endPositionMm + d as real * 0.1
    ensures selection == 2 ==> r == s.(stepSizeMicrons := r.stepSizeMicrons, totalShots := r.totalShots)
    ensures selection == 2 ==> r.stepSizeMicrons >= 1.0
    ensures selection == 2 && s.stepSizeMicrons + d as real * 5.0 >= 1.0 ==>
      r.stepSizeMicrons == s.stepSizeMicrons + d as real * 5.0
    ensures selection == 2 && s.stepSizeMicrons + d as real * 5.0 < 1.0 ==> r.stepSizeMicrons == 1.0
    ensures selection == 3 ==> r == s.(delayMs := r.delayMs, totalShots := r.totalShots)
    ensures selection == 3 ==> r.delayMs >= 100
    ensures selection == 3 && s.delayMs + d * 100 >= 100 ==> r.delayMs == s.delayMs + d * 100
    ensures selection == 3 && s.delayMs + d * 100 < 100 ==> r.delayMs == 100
    ensures selection !in {0, 1, 2, 3} ==> r == Recalculated(s)
    ensures r.shotsTaken == s.shotsTaken && r.reverseDirection == s.reverseDirection
    ensures r.returnToStart == s.returnToStart
  {
    var edited :=
      if selection == 0 then s.(startPositionMm := s.startPositionMm + d as real * 0.1)
      else if selection == 1 then s.(endPositionMm := s.endPositionMm + d as real * 0.1)
      else if selection == 2 then s.(stepSizeMicrons := FloorAtReal(s.stepSizeMicrons + d as real * 5.0, 1.0))
      else if selection == 3 then s.(delayMs := FloorAt(s.delayMs + d * 100, 100))
      else s;
    Recalculated(edited)
  }

  /**
   * SETTINGS edits: brightness by 5 (clamped to 10..100), trigger time by
   * 10 ms (floor 50), settling time by 50 ms (floor 100), backlash by 5 um
   * (floor 0), sensitivity by 1 (clamped to 1..10); the edited field is the
   * only one that changes, and items 3 (beep) and 6 (save) have no edit.
   */
  function EditSettings(c: SystemConfig, selection: int, d: int): (r: SystemConfig)
    ensures SystemValid(c) ==> SystemValid(r)
    ensures selection == 0 ==> r == c.(lcdBrightness := r.lcdBrightness) && 10 <= r.lcdBrightness <= 100
    ensures selection == 0 && 10 <= c.lcdBrightness + d * 5 <= 100 ==> r.lcdBrightness == c.lcdBrightness + d * 5
    ensures selection == 0 && c.lcdBrightness + d * 5 < 10 ==> r.lcdBrightness == 10
    ensures selection == 0 && c.lcdBrightness + d * 5 > 100 ==> r.lcdBrightness == 100
    ensures selection == 1 ==> r == c.(cameraTriggerDuration := r.cameraTriggerDuration) && r.cameraTriggerDuration >= 50
    ensures selection == 1 && c.cameraTriggerDuration + d * 10 >= 50 ==>
      r.cameraTriggerDuration == c.cameraTriggerDuration + d * 10
    ensures selection == 1 && c.cameraTriggerDuration + d * 10 < 50 ==> r.cameraTriggerDuration == 50
    ensures selection == 2 ==> r == c.(settlingTime := r.settlingTime) && r.settlingTime >= 100
    ensures selection == 2 && c.settlingTime + d * 50 >= 100 ==> r.settlingTime == c.settlingTime + d * 50
    ensures selection == 2 && c.settlingTime + d * 50 < 100 ==> r.settlingTime == 100
    ensures selection == 4 ==> r == c.(backlashCompensation := r.backlashCompensation) && r.backlashCompensation >= 0.0
    ensures selection == 4 && c.backlashCompensation + d as real * 5.0 >= 0.0 ==>
      r.backlashCompensation == c.backlashCompensation + d as real * 5.0
    ensures selection == 4 && c.backlashCompensation + d as real * 5.0 < 0.0 ==> r.backlashCompensation == 0.0
    ensures selection == 5 ==> r == c.(encoderSensitivity := r.encoderSensitivity) && 1 <= r.encoderSensitivity <= 10
    ensures selection == 5 && 1 <= c.encoderSensitivity + d <= 10 ==> r.encoderSensitivity == c.encoderSensitivity + d
    ensures selection == 5 && c.encoderSensitivity + d < 1 ==> r.encoderSensitivity == 1
    ensures selection == 5 && c.encoderSensitivity + d > 10 ==> r.encoderSensitivity == 10
    ensures selection !in {0, 1, 2, 4, 5} ==> r == c
    ensures r.beepEnabled == c.beepEnabled
  {
    if selection == 0 then c.(lcdBrightness := ClampInt(c.lcdBrightness + d * 5, 10, 100))
    else if selection == 1 then c.(cameraTriggerDuration := FloorAt(c.cameraTriggerDuration + d * 10, 50))
    else if selection == 2 then c.(settlingTime := FloorAt(c.settlingTime + d * 50, 100))
    else if selection == 4 then c.(backlashCompensation := FloorAtReal(c.backlashCompensation + d as real * 5.0, 0.0))
    else if selection == 5 then c.(encoderSensitivity := ClampInt(c.encoderSensitivity + d, 1, 10))
    else c
  }

  /**
   * CALIBRATION edits: steps/mm by 10 (floor 100), travel by 1 mm (floor
   * 10), step size by 0.1 um (floor 0.1); the edited field is the only one
   * that changes.
   */
  function EditCalibration(r: RailConfig, selection: int, d: int): (r': RailConfig)
    ensures RailValid(r) ==> RailValid(r')
    ensures selection == 0 ==> r' == r.(stepsPerMm := r'.stepsPerMm) && r'.stepsPerMm >= 100
    ensures selection == 0 && r.stepsPerMm + d * 10 >= 100 ==> r'.stepsPerMm == r.stepsPerMm + d * 10
    ensures selection == 0 && r.stepsPerMm + d * 10 < 100 ==> r'.stepsPerMm == 100
    ensures selection == 1 ==> r' == r.(maxTravelMm := r'.maxTravelMm) && r'.maxTravelMm >= 10.0
    ensures selection == 1 && r.maxTravelMm + d as real >= 10.0 ==> r'.maxTravelMm == r.maxTravelMm + d as real
    ensures selection == 1 && r.maxTravelMm + d as real < 10.0 ==> r'.maxTravelMm == 10.0
    ensures selection == 2 ==> r' == r.(stepSizeMicrons := r'.stepSizeMicrons) && r'.stepSizeMicrons >= 0.1
    ensures selection == 2 && r.stepSizeMicrons + d as real * 0.1 >= 0.1 ==>
      r'.stepSizeMicrons == r.stepSizeMicrons + d as real * 0.1
    ensures selection == 2 && r.stepSizeMicrons + d as real * 0.1 < 0.1 ==> r'.stepSizeMicrons == 0.1
    ensures selection !in {0, 1, 2} ==> r' == r
    ensures r'.currentPositionMm == r.currentPositionMm && r'.totalSteps == r.totalSteps
    ensures r'.homed == r.homed
  {
    if selection == 0 then r.(stepsPerMm := FloorAt(r.stepsPerMm + d * 10, 100))
    else if selection == 1 then r.(maxTravelMm := FloorAtReal(r.maxTravelMm + d as real * 1.0, 10.0))
    else if selection == 2 then r.(stepSizeMicrons := FloorAtReal(r.stepSizeMicrons + d as real * 0.1, 0.1))
    else r
  }

  // ---------------------------------------------------------------------
  // Stack sequencing

  /** The signed per-shot move: step/1000 mm toward the end, flipped when reversed. */
  function ShotStep(s: StackConfig): (step: real)
    ensures Abs(step) == Abs(s.stepSizeMicrons / 1000.0)
    ensures s.stepSizeMicrons >= 0.0 ==>
      (step >= 0.0 <==> ((s.endPositionMm > s.startPositionMm) != s.reverseDirection) || s.stepSizeMicrons == 0.0)
  {
    var forward := s.endPositionMm > s.startPositionMm;
    var forward' := if s.reverseDirection then !forward else forward;
    var distance := s.stepSizeMicrons / 1000.0;
    if !forward' then -distance else distance
  }

  /**
   * Shots the sequencer takes when a stop request (if any) is first seen at
   * check point `k`, the k-th test of stack_running (0 before the first shot).
   */
  function ShotsRun(totalShots: int, stop: Option<nat>): (n: nat)
    ensures totalShots >= 0 ==> n <= totalShots
    ensures stop.None? && totalShots >= 0 ==> n == totalShots
    ensures stop.Some? && totalShots >= 0 ==> n == if stop.value < totalShots then stop.value else totalShots
  {
    if totalShots <= 0 then 0
    else match stop
      case None => totalShots
      case Some(k) => if k < totalShots then k else totalShots
  }

  /** Whether the sequencer ran to exhaustion without seeing a stop request. */
  predicate Completed(totalShots: int, stop: Option<nat>) {
    stop.None? || stop.value > (if totalShots < 0 then 0 else totalShots)
  }

  /** Moves between shots once n shots are taken: none after the last shot of the plan. */
  function MovesBetween(n: nat, totalShots: int): (m: nat)
    requires n <= totalShots || n == 0
    ensures m <= n
    ensures n < totalShots ==> m == n
    ensures 0 < n == totalShots ==> m == n - 1
  {
    if n < totalShots then n else if n > 0 then n - 1 else 0
  }

  datatype Option<T> = None | Some(value: T)

  // ---------------------------------------------------------------------
  // Progress screen arithmetic

  /**
   * Width in pixels of the progress bar, shots_taken * 100 / total_shots:
   * the percentage of shots taken, rounded down.
   */
  function ProgressWidth(shotsTaken: int, totalShots: int): (w: int)
    requires totalShots != 0
    ensures 0 <= shotsTaken <= totalShots ==> 0 <= w <= 100
    ensures 0 < totalShots == shotsTaken ==> w == 100
    ensures shotsTaken == 0 ==> w == 0
    ensures 0 <= shotsTaken && 0 < totalShots ==> w * totalShots <= shotsTaken * 100 < (w + 1) * totalShots
  {
    ProgressBound(shotsTaken, totalShots);
    CDiv(shotsTaken * 100, totalShots)
  }

  lemma ProgressBound(t: int, n: int)
    requires n != 0
    ensures 0 <= t <= n ==> 0 <= CDiv(t * 100, n) <= 100
    ensures 0 < n == t ==> CDiv(t * 100, n) == 100
    ensures 0 <= t && 0 < n ==> CDiv(t * 100, n) * n <= t * 100 < (CDiv(t * 100, n) + 1) * n
  {
    if 0 <= t && 0 < n {
      CDivBounds(t * 100, n);
    }
    if 0 <= t <= n {
      MulLe(t, n, 100);
      DivAtMost(t * 100, n, 100);
      if t == n {
        DivMultiple(n, 100);
      }
    }
  }

  /** A multiple of `n` divided by `n` gives the factor back. */
  lemma DivMultiple(n: int, k: int)
    requires n > 0
    ensures (n * k) / n == k
  {
    var q, r := (n * k) / n, (n * k) % n;
    assert n * k == n * q + r && 0 <= r < n;
    if q < k {
      MulLe(q + 1, k, n);
    } else if q > k {
      MulLe(k + 1, q, n);
    }
  }

  lemma MulLe(a: int, b: int, c: int)
    requires a <= b && c >= 0
    ensures a * c <= b * c
  {
    assert b * c - a * c == (b - a) * c;
  }

  /** x <= k * n gives x / n <= k. */
  lemma DivAtMost(x: int, n: int, k: int)
    requires n > 0 && 0 <= x <= n * k
    ensures x / n <= k
  {
    var q := x / n;
    assert q * n <= x;
    assert (k + 1) * n == k * n + n;
    if q > k {
      MulLe(k + 1, q, n);
    }
  }

  /**
   * Seconds still to wait, remaining shots times the delay over 1000: the
   * whole seconds in the remaining wait, truncated toward zero.
   */
  function EtaSeconds(totalShots: int, shotsTaken: int, delayMs: int): (t: int)
    ensures 0 <= shotsTaken <= totalShots && delayMs >= 0 ==> t >= 0
    ensures shotsTaken == totalShots ==> t == 0
    ensures (totalShots - shotsTaken) * delayMs >= 0 ==>
      t * 1000 <= (totalShots - shotsTaken) * delayMs < (t + 1) * 1000
    ensures (totalShots - shotsTaken) * delayMs <= 0 ==>
      (t - 1) * 1000 < (totalShots - shotsTaken) * delayMs <= t * 1000
  {
    CDivBounds((totalShots - shotsTaken) * delayMs, 1000);
    CDiv((totalShots - shotsTaken) * delayMs, 1000)
  }

  /** The ETA text "m:ss": minutes and seconds with C's / and %. */
  function EtaText(t: int): (ms: (int, int))
    ensures ms.0 * 60 + ms.1 == t
    ensures t >= 0 ==> ms.0 >= 0 && 0 <= ms.1 < 60
  {
    (CDiv(t, 60), CMod(t, 60))
  }
}
