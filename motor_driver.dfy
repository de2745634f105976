/** The MD20 motor driver: a PWM line and a direction line on the
    Raspberry Pi's GPIO chip.  A duty cycle is clamped to [-1, 1] and its sign
    selects the direction, 0 forward and 1 backward.

    GPIO lines are modelled as fields holding their last level; the
    `setDutyCycleDelta` the control loops call is recorded in a ghost log,
    since no body for it exists in the repository. */
module MotorDriver {

  /** The level of a GPIO output line. */
  type LineLevel = v: int | 0 <= v <= 1

  /** The duty cycle limited to [-1, 1]: above 1 gives 1, below -1 gives -1,
      and a duty cycle already in range is kept. */
  function ClampDuty(duty: real): (r: real)
    ensures -1.0 <= r <= 1.0
    ensures -1.0 <= duty <= 1.0 ==> r == duty
    ensures duty > 1.0 ==> r == 1.0
    ensures duty < -1.0 ==> r == -1.0
  {
    if duty > 1.0 then 1.0 else if duty < -1.0 then -1.0 else duty
  }

  /** The direction line level for a duty cycle: 0 (forward) when it is not
      negative, 1 (backward) when it is. */
  function DirectionLevel(duty: real): LineLevel {
    if duty >= 0.0 then 0 else 1
  }

  /** Clamping never reverses the motor, and clamping twice is clamping
      once. */
  lemma ClampKeepsDirection(duty: real)
    ensures DirectionLevel(ClampDuty(duty)) == DirectionLevel(duty)
    ensures ClampDuty(ClampDuty(duty)) == ClampDuty(duty)
    ensures (ClampDuty(duty) == 0.0) == (duty == 0.0)
  {
  }

  /** The unit test's duty cycles: 1.5 is driven as 1 forward, -1.2 as -1
      backward, 1, -1 and 0.5343 as given, and 0 forward. */
  lemma TestVector()
    ensures ClampDuty(1.5) == 1.0 && DirectionLevel(ClampDuty(1.5)) == 0
    ensures ClampDuty(-1.2) == -1.0 && DirectionLevel(ClampDuty(-1.2)) == 1
    ensures ClampDuty(1.0) == 1.0 && DirectionLevel(ClampDuty(1.0)) == 0
    ensures ClampDuty(-1.0) == -1.0 && DirectionLevel(ClampDuty(-1.0)) == 1
    ensures ClampDuty(0.5343) == 0.5343 && DirectionLevel(ClampDuty(0.5343)) == 0
    ensures ClampDuty(0.0) == 0.0 && DirectionLevel(ClampDuty(0.0)) == 0
  {
  }

  class MotorDriver {
    const pinPwm: bv8
    const pinDir: bv8
    var pwmLine: LineLevel
    var dirLine: LineLevel
    /** Every duty-cycle change requested through `setDutyCycleDelta`, in
        order. */
    ghost var deltas: seq<real>

    /** `MotorDriver::MotorDriver`: both lines are driven low. */
    constructor (pinPwm: bv8, pinDir: bv8)
      ensures this.pinPwm == pinPwm && this.pinDir == pinDir
      ensures pwmLine == 0 && dirLine == 0 && deltas == []
    {
      this.pinPwm := pinPwm;
      this.pinDir := pinDir;
      pwmLine := 0;
      dirLine := 0;
      deltas := [];
    }

    /** `setDutyCycle`: clamps the duty cycle and sets the direction line from
        the sign of the clamped value; the PWM line is left as it is. */
    method SetDutyCycle(dutyCycle: real)
      modifies this`dirLine
      ensures dirLine == DirectionLevel(ClampDuty(dutyCycle))
    {
      var duty := dutyCycle;
      if duty > 1.0 {
        duty := 1.0;
      } else if duty < -1.0 {
        duty := -1.0;
      }
      if duty >= 0.0 {
        dirLine := 0;
      } else {
        dirLine := 1;
      }
    }

    /** `setDutyCycleDelta`: one requested change of duty cycle. */
    method SetDutyCycleDelta(delta: real)
      modifies this`deltas
      ensures deltas == old(deltas) + [delta]
    {
      deltas := deltas + [delta];
    }
  }
}
