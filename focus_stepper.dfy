/**
 * The focus-rail variant's stepper driver: an active-low enable line, a
 * direction line and a step line, with the position counted in steps.
 * Pulses on the step line are counted in a ghost field.
 */
module FocusStepper {

  /** The driver's state and the three output levels it last set. */
  class Stepper {
    var focusPosition: int
    var motorEnabled: bool
    var enablePin: int
    var dirPin: int
    var stepPin: int
    ghost var pulses: nat

    /** The enable line is active low: it reads 0 exactly when the motor is enabled; the step line rests low. */
    ghost predicate Valid()
      reads this
    {
      enablePin == (if motorEnabled then 0 else 1) && stepPin == 0
    }

    /**
     * The power-on values of the globals (the pins read low before
     * stepper_init). Valid() does not hold yet: Init (stepper_init) must
     * run before the other operations use the driver.
     */
    constructor ()
      ensures focusPosition == 0 && !motorEnabled && pulses == 0
    {
      focusPosition := 0;
      motorEnabled := false;
      enablePin := 0;
      dirPin := 0;
      stepPin := 0;
      pulses := 0;
    }

    /** stepper_init, past the pin configuration: disabled, lines low except enable, position 0. */
    method Init()
      modifies this`enablePin, this`stepPin, this`dirPin, this`motorEnabled, this`focusPosition
      ensures Valid()
      ensures !motorEnabled && enablePin == 1 && stepPin == 0 && dirPin == 0 && focusPosition == 0
    {
      enablePin := 1;
      stepPin := 0;
      dirPin := 0;
      motorEnabled := false;
      focusPosition := 0;
    }

    /** stepper_enable. */
    method Enable(enable: bool)
      requires Valid()
      modifies this`enablePin, this`motorEnabled
      ensures Valid()
      ensures motorEnabled == enable && enablePin == (if enable then 0 else 1)
    {
      enablePin := if enable then 0 else 1;
      motorEnabled := enable;
    }

    /**
     * stepper_move(steps): nothing when disabled or asked for 0 steps;
     * otherwise the direction line shows the sign, |steps| pulses are
     * issued and the position moves by `steps`.
     */
    method Move(steps: int)
      requires Valid()
      modifies this`dirPin, this`stepPin, this`pulses, this`focusPosition
      ensures Valid()
      ensures !old(motorEnabled) || steps == 0 ==>
        focusPosition == old(focusPosition) && pulses == old(pulses) && dirPin == old(dirPin)
      ensures motorEnabled && steps != 0 ==>
        && focusPosition == old(focusPosition) + steps
        && pulses == old(pulses) + (if steps < 0 then -steps else steps)
        && dirPin == (if steps > 0 then 1 else 0)
    {
      if !motorEnabled {
        return;
      }
      if steps == 0 {
        return;
      }
      dirPin := if steps > 0 then 1 else 0;
      var absSteps := if steps < 0 then -steps else steps;
      var i := 0;
      while i < absSteps
        invariant 0 <= i <= absSteps
        invariant pulses == old(pulses) + i && stepPin == 0
        invariant focusPosition == old(focusPosition) && dirPin == (if steps > 0 then 1 else 0)
      {
        stepPin := 1;
        pulses := pulses + 1;
        stepPin := 0;
        i := i + 1;
      }
      focusPosition := focusPosition + steps;
    }

    method GetPosition() returns (p: int)
      ensures p == focusPosition
    {
      p := focusPosition;
    }

    method ResetPosition()
      modifies this`focusPosition
      ensures focusPosition == 0
    {
      focusPosition := 0;
    }

    method IsEnabled() returns (b: bool)
      requires Valid()
      ensures b == motorEnabled && b == (enablePin == 0)
    {
      b := motorEnabled;
    }
  }
}
