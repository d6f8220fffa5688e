/**
 * The focus-rail variant's menu: four screens driven by encoder events,
 * a step size that cycles through five values, a motor-enable switch and
 * a position counter kept beside the stepper's own. The stepper is
 * reached through two optional callbacks; their calls and every
 * `menu_display` are recorded as ghost traces.
 */
module FocusMenu {

  datatype MenuScreen = MainMenu | MoveMenu | SettingsMenu | AutoStackMenu

  /** One encoder event: a rotation direction (0 for none) and whether the switch was pressed. */
  datatype EncoderEvent = EncoderEvent(direction: int, buttonPressed: bool)

  datatype Option<T> = None | Some(value: T)

  /** The step sizes the settings screen cycles through. */
  const StepSizes: set<int> := {1, 5, 10, 50, 100}

  /**
   * Everything the menu keeps: `menu_config`, whether each callback is
   * registered, and the traces of callback calls and screens displayed.
   */
  datatype MenuState = MenuState(
    focusPosition: int, stepSize: int, motorEnabled: bool, screen: MenuScreen, selection: int,
    moveCallbackSet: bool, enableCallbackSet: bool,
    moveRequests: seq<int>, enableRequests: seq<bool>, displays: seq<MenuScreen>)

  /** The highest item index of the screens that have a selection: 2 on MAIN, 3 on SETTINGS. */
  function LastItem(screen: MenuScreen): int {
    if screen == SettingsMenu then 3 else 2
  }

  /** The selection after adding a rotation: below 0 goes to the last item, past it goes to 0. */
  function WrapSelection(v: int, last: nat): (r: int)
    ensures 0 <= r <= last
    ensures 0 <= v <= last ==> r == v
    ensures v < 0 ==> r == last
    ensures v > last ==> r == 0
  {
    if v < 0 then last else if v > last then 0 else v
  }

  /** The step-size cycle 1, 5, 10, 50, 100, 1; any other value starts it again at 1. */
  function NextStepSize(s: int): (r: int)
    ensures r in StepSizes
    ensures s !in StepSizes || s == 100 ==> r == 1
    ensures s in StepSizes && s < 100 ==> s < r && forall t :: t in StepSizes && t > s ==> r <= t
  {
    if s == 1 then 5
    else if s == 5 then 10
    else if s == 10 then 50
    else if s == 50 then 100
    else 1
  }

  /** `n` presses on the step-size item. */
  function StepSizeAfter(s: int, n: nat): int
    decreases n
  {
    if n == 0 then s else NextStepSize(StepSizeAfter(s, n - 1))
  }

  /** menu_display: the current screen is drawn. */
  function Displayed(m: MenuState): MenuState {
    m.(displays := m.displays + [m.screen])
  }

  /** handle_main_menu_input. */
  function MainInput(m: MenuState, e: EncoderEvent): MenuState {
    if e.buttonPressed then
      Displayed(
        if m.selection == 0 then m.(screen := MoveMenu)
        else if m.selection == 1 then m.(screen := SettingsMenu, selection := 0)
        else if m.selection == 2 then m.(screen := AutoStackMenu)
        else m)
    else if e.direction != 0 then
      Displayed(m.(selection := WrapSelection(m.selection + e.direction, 2)))
    else m
  }

  /** handle_move_menu_input. */
  function MoveInput(m: MenuState, e: EncoderEvent): MenuState {
    if e.buttonPressed then Displayed(m.(screen := MainMenu, selection := 0))
    else if e.direction != 0 then
      Displayed(
        if m.motorEnabled && m.moveCallbackSet then
          var steps := e.direction * m.stepSize;
          m.(moveRequests := m.moveRequests + [steps], focusPosition := m.focusPosition + steps)
        else m)
    else m
  }

  /** handle_settings_menu_input. */
  function SettingsInput(m: MenuState, e: EncoderEvent): MenuState {
    if e.buttonPressed then
      Displayed(
        if m.selection == 0 then m.(stepSize := NextStepSize(m.stepSize))
        else if m.selection == 1 then
          m.(motorEnabled := !m.motorEnabled,
             enableRequests := if m.enableCallbackSet then m.enableRequests + [!m.motorEnabled]
                               else m.enableRequests)
        else if m.selection == 2 then m.(focusPosition := 0)
        else if m.selection == 3 then m.(screen := MainMenu, selection := 0)
        else m)
    else if e.direction != 0 then
      Displayed(m.(selection := WrapSelection(m.selection + e.direction, 3)))
    else m
  }

  /** handle_auto_stack_menu_input: a press returns to MAIN; rotation is ignored. */
  function AutoStackInput(m: MenuState, e: EncoderEvent): MenuState {
    if e.buttonPressed then Displayed(m.(screen := MainMenu, selection := 0)) else m
  }

  /** menu_handle_input: a missing event is ignored, otherwise the current screen's handler runs. */
  function AfterInput(m: MenuState, e: Option<EncoderEvent>): MenuState {
    match e
    case None => m
    case Some(ev) =>
      match m.screen
      case MainMenu => MainInput(m, ev)
      case MoveMenu => MoveInput(m, ev)
      case SettingsMenu => SettingsInput(m, ev)
      case AutoStackMenu => AutoStackInput(m, ev)
  }

  /** Events handled one after another, first to last. */
  function AfterInputs(m: MenuState, es: seq<EncoderEvent>): MenuState
    decreases |es|
  {
    if es == [] then m else AfterInputs(AfterInput(m, Some(es[0])), es[1..])
  }

  /** What every handler keeps: a step size from the cycle, and a selection in range on MAIN and SETTINGS. */
  predicate MenuValid(m: MenuState) {
    && m.stepSize in StepSizes
    && (m.screen in {MainMenu, SettingsMenu} ==> 0 <= m.selection <= LastItem(m.screen))
  }

  // ---------------------------------------------------------------------
  // Properties of the handlers

  /** Five presses on the step-size item bring every size of the cycle back to itself. */
  lemma {:induction false} StepSizeCycles(s: int)
    requires s in StepSizes
    ensures StepSizeAfter(s, 5) == s
    ensures forall n: nat :: n < 5 ==> StepSizeAfter(s, n) in StepSizes
    ensures forall i: nat, j: nat :: i < j < 5 ==> StepSizeAfter(s, i) != StepSizeAfter(s, j)
    ensures StepSizeAfter(1, 1) == 5 && StepSizeAfter(1, 2) == 10 && StepSizeAfter(1, 3) == 50
      && StepSizeAfter(1, 4) == 100
  {
    assert StepSizeAfter(s, 0) == s;
    assert StepSizeAfter(s, 1) == NextStepSize(s);
    assert StepSizeAfter(s, 2) == NextStepSize(NextStepSize(s));
    assert StepSizeAfter(s, 3) == NextStepSize(NextStepSize(NextStepSize(s)));
    assert StepSizeAfter(s, 4) == NextStepSize(NextStepSize(NextStepSize(NextStepSize(s))));
  }

  /** Every event keeps the step size in the cycle and the selection in range. */
  lemma InputKeepsValid(m: MenuState, e: Option<EncoderEvent>)
    requires MenuValid(m)
    ensures MenuValid(AfterInput(m, e))
  {
    match e
    case None =>
    case Some(ev) =>
      match m.screen
      case MainMenu => MainInputKeepsValid(m, ev);
      case MoveMenu => MoveInputKeepsValid(m, ev);
      case SettingsMenu => SettingsInputKeepsValid(m, ev);
      case AutoStackMenu => AutoStackInputKeepsValid(m, ev);
  }

  lemma MainInputKeepsValid(m: MenuState, e: EncoderEvent)
    requires MenuValid(m) && m.screen == MainMenu
    ensures MenuValid(MainInput(m, e))
  {
  }

  lemma MoveInputKeepsValid(m: MenuState, e: EncoderEvent)
    requires MenuValid(m) && m.screen == MoveMenu
    ensures MenuValid(MoveInput(m, e))
  {
  }

  lemma SettingsInputKeepsValid(m: MenuState, e: EncoderEvent)
    requires MenuValid(m) && m.screen == SettingsMenu
    ensures MenuValid(SettingsInput(m, e))
  {
  }

  lemma AutoStackInputKeepsValid(m: MenuState, e: EncoderEvent)
    requires MenuValid(m) && m.screen == AutoStackMenu
    ensures MenuValid(AutoStackInput(m, e))
  {
  }

  /** So does any sequence of events. */
  lemma {:induction false} InputsKeepValid(m: MenuState, es: seq<EncoderEvent>)
    requires MenuValid(m)
    ensures MenuValid(AfterInputs(m, es))
    decreases |es|
  {
    if es != [] {
      InputKeepsValid(m, Some(es[0]));
      InputsKeepValid(AfterInput(m, Some(es[0])), es[1..]);
    }
  }

  /**
   * Rotation on MOVE changes the position by direction times the step
   * size exactly when the motor is enabled and a move callback is set,
   * and asks the callback for that same count; otherwise it moves nothing.
   */
  lemma MoveRotation(m: MenuState, direction: int)
    requires m.screen == MoveMenu && direction != 0
    ensures var t := AfterInput(m, Some(EncoderEvent(direction, false)));
      && (m.motorEnabled && m.moveCallbackSet ==>
            t.focusPosition == m.focusPosition + direction * m.stepSize
            && t.moveRequests == m.moveRequests + [direction * m.stepSize])
      && (!(m.motorEnabled && m.moveCallbackSet) ==>
            t.focusPosition == m.focusPosition && t.moveRequests == m.moveRequests)
      && t.screen == MoveMenu && t.stepSize == m.stepSize && t.displays == m.displays + [MoveMenu]
  {
  }

  /**
   * The position the menu shows moves only by what it asked the stepper
   * to move, or is reset to 0 by a settings press on item 2.
   */
  lemma PositionFollowsRequests(m: MenuState, e: EncoderEvent)
    ensures var t := AfterInput(m, Some(e));
      || (t.focusPosition == m.focusPosition && t.moveRequests == m.moveRequests)
      || (m.screen == MoveMenu && |t.moveRequests| == |m.moveRequests| + 1
          && t.focusPosition == m.focusPosition + t.moveRequests[|m.moveRequests|])
      || (m.screen == SettingsMenu && m.selection == 2 && e.buttonPressed && t.focusPosition == 0)
  {
  }

  /** A press on MOVE, on AUTO_STACK or on settings item 3 returns to MAIN with item 0 selected. */
  lemma PressReturnsToMain(m: MenuState)
    requires m.screen in {MoveMenu, AutoStackMenu} || (m.screen == SettingsMenu && m.selection == 3)
    ensures var t := AfterInput(m, Some(EncoderEvent(0, true)));
      t.screen == MainMenu && t.selection == 0 && t.focusPosition == m.focusPosition
  {
  }

  /** A settings press on item 2 zeroes the position and nothing else of the configuration. */
  lemma ResetPositionPress(m: MenuState, direction: int)
    requires m.screen == SettingsMenu && m.selection == 2
    ensures var t := AfterInput(m, Some(EncoderEvent(direction, true)));
      t == Displayed(m).(focusPosition := 0)
  {
  }

  /** The motor-enable press flips the flag and hands the new value to the enable callback when set. */
  lemma MotorEnablePress(m: MenuState, direction: int)
    requires m.screen == SettingsMenu && m.selection == 1
    ensures var t := AfterInput(m, Some(EncoderEvent(direction, true)));
      && t.motorEnabled == !m.motorEnabled
      && t.enableRequests == (if m.enableCallbackSet then m.enableRequests + [t.motorEnabled]
                              else m.enableRequests)
  {
  }

  /**
   * A MAIN press on item 0 or 2 opens MOVE or AUTO_STACK keeping the
   * selection; only item 1 (SETTINGS) resets it to 0.
   */
  lemma MainPressKeepsSelection(m: MenuState)
    requires m.screen == MainMenu && 0 <= m.selection <= 2
    ensures var t := AfterInput(m, Some(EncoderEvent(0, true)));
      && t.screen == (if m.selection == 0 then MoveMenu
                      else if m.selection == 1 then SettingsMenu else AutoStackMenu)
      && t.selection == (if m.selection == 1 then 0 else m.selection)
  {
  }

  /** A missing event, and a rotation on AUTO_STACK, change nothing at all. */
  lemma IgnoredInputs(m: MenuState, direction: int)
    ensures AfterInput(m, None) == m
    ensures m.screen == AutoStackMenu ==> AfterInput(m, Some(EncoderEvent(direction, false))) == m
  {
  }

  /**
   * The focus-rail menu as an object: the fields of `menu_config`, the
   * two callback registrations, and the ghost traces.
   */
  class Menu {
    var focusPosition: int
    var stepSize: int
    var motorEnabled: bool
    var currentMenu: MenuScreen
    var menuSelection: int
    var moveCallbackSet: bool
    var enableCallbackSet: bool
    ghost var moveRequests: seq<int>
    ghost var enableRequests: seq<bool>
    ghost var displays: seq<MenuScreen>

    ghost function State(): MenuState
      reads this
    {
      MenuState(focusPosition, stepSize, motorEnabled, currentMenu, menuSelection,
                moveCallbackSet, enableCallbackSet, moveRequests, enableRequests, displays)
    }

    ghost predicate Valid()
      reads this
    {
      MenuValid(State())
    }

    /** The static initialiser of `menu_config`; no callbacks registered. */
    constructor ()
      ensures Valid()
      ensures State() == MenuState(0, 1, false, MainMenu, 0, false, false, [], [], [])
    {
      focusPosition := 0;
      stepSize := 1;
      motorEnabled := false;
      currentMenu := MainMenu;
      menuSelection := 0;
      moveCallbackSet := false;
      enableCallbackSet := false;
      moveRequests := [];
      enableRequests := [];
      displays := [];
    }

    /** menu_set_stepper_callbacks: a null pointer is an unset callback. */
    method SetStepperCallbacks(moveSet: bool, enableSet: bool)
      modifies this`moveCallbackSet, this`enableCallbackSet
      ensures moveCallbackSet == moveSet && enableCallbackSet == enableSet
    {
      moveCallbackSet := moveSet;
      enableCallbackSet := enableSet;
    }

    /** menu_display. */
    method Display()
      modifies this`displays
      ensures displays == old(displays) + [currentMenu]
    {
      displays := displays + [currentMenu];
    }

    /** menu_handle_input. */
    method HandleInput(e: Option<EncoderEvent>)
      requires Valid()
      modifies this
      ensures Valid()
      ensures State() == AfterInput(old(State()), e)
    {
      InputKeepsValid(State(), e);
      if e.None? {
        return;
      }
      var ev := e.value;
      match currentMenu {
        case MainMenu =>
          HandleMainInput(ev);
        case MoveMenu =>
          HandleMoveInput(ev);
        case SettingsMenu =>
          HandleSettingsInput(ev);
        case AutoStackMenu =>
          HandleAutoStackInput(ev);
      }
    }

    method HandleMainInput(e: EncoderEvent)
      requires currentMenu == MainMenu
      modifies this`currentMenu, this`menuSelection, this`displays
      ensures State() == MainInput(old(State()), e)
    {
      if e.buttonPressed {
        if menuSelection == 0 {
          currentMenu := MoveMenu;
        } else if menuSelection == 1 {
          currentMenu := SettingsMenu;
          menuSelection := 0;
        } else if menuSelection == 2 {
          currentMenu := AutoStackMenu;
        }
        Display();
        return;
      }
      if e.direction != 0 {
        menuSelection := menuSelection + e.direction;
        if menuSelection < 0 {
          menuSelection := 2;
        }
        if menuSelection > 2 {
          menuSelection := 0;
        }
        Display();
      }
    }

    method HandleMoveInput(e: EncoderEvent)
      requires currentMenu == MoveMenu
      modifies this`currentMenu, this`menuSelection, this`focusPosition, this`moveRequests, this`displays
      ensures State() == MoveInput(old(State()), e)
    {
      if e.buttonPressed {
        currentMenu := MainMenu;
        menuSelection := 0;
        Display();
        return;
      }
      if e.direction != 0 {
        if motorEnabled && moveCallbackSet {
          var steps := e.direction * stepSize;
          moveRequests := moveRequests + [steps];
          focusPosition := focusPosition + steps;
        }
        Display();
      }
    }

    method HandleSettingsInput(e: EncoderEvent)
      requires currentMenu == SettingsMenu
      modifies this`currentMenu, this`menuSelection, this`focusPosition, this`stepSize,
               this`motorEnabled, this`enableRequests, this`displays
      ensures State() == SettingsInput(old(State()), e)
    {
      if e.buttonPressed {
        if menuSelection == 0 {
          if stepSize == 1 {
            stepSize := 5;
          } else if stepSize == 5 {
            stepSize := 10;
          } else if stepSize == 10 {
            stepSize := 50;
          } else if stepSize == 50 {
            stepSize := 100;
          } else {
            stepSize := 1;
          }
        } else if menuSelection == 1 {
          motorEnabled := !motorEnabled;
          if enableCallbackSet {
            enableRequests := enableRequests + [motorEnabled];
          }
        } else if menuSelection == 2 {
          focusPosition := 0;
        } else if menuSelection == 3 {
          currentMenu := MainMenu;
          menuSelection := 0;
        }
        Display();
        return;
      }
      if e.direction != 0 {
        menuSelection := menuSelection + e.direction;
        if menuSelection < 0 {
          menuSelection := 3;
        }
        if menuSelection > 3 {
          menuSelection := 0;
        }
        Display();
      }
    }

    method HandleAutoStackInput(e: EncoderEvent)
      requires currentMenu == AutoStackMenu
      modifies this`currentMenu, this`menuSelection, this`displays
      ensures State() == AutoStackInput(old(State()), e)
    {
      if e.buttonPressed {
        currentMenu := MainMenu;
        menuSelection := 0;
        Display();
      }
    }

    /** One pass of menu_task's loop: MOVE is redrawn on every pass to show the live position. */
    method TaskTick()
      modifies this`displays
      ensures displays == old(displays) + (if currentMenu == MoveMenu then [MoveMenu] else [])
    {
      if currentMenu == MoveMenu {
        Display();
      }
    }

    method SetMotorEnabled(enabled: bool)
      modifies this`motorEnabled
      ensures motorEnabled == enabled
    {
      motorEnabled := enabled;
    }

    method SetFocusPosition(position: int)
      modifies this`focusPosition
      ensures focusPosition == position
    {
      focusPosition := position;
    }

    method UpdateFocusPosition(delta: int)
      modifies this`focusPosition
      ensures focusPosition == old(focusPosition) + delta
    {
      focusPosition := focusPosition + delta;
    }

    method GetFocusPosition() returns (p: int)
      ensures p == focusPosition
    {
      p := focusPosition;
    }

    method GetStepSize() returns (s: int)
      requires Valid()
      ensures s == stepSize && s in StepSizes
    {
      s := stepSize;
    }

    method GetMotorEnabled() returns (b: bool)
      ensures b == motorEnabled
    {
      b := motorEnabled;
    }
  }
}
