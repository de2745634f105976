/** The single-loop wiring of the table: the inertial sensor's samples give
    the holder's angle, the process variable of the one (position)
    controller, and each of its outputs is sent to the motor driver as a
    duty-cycle change of the same sign. */
module SingleLoop {
  import Pid
  import Orientation
  import MotorDriver

  /** The controller's sink: its output, not negated, is the duty-cycle
      change. */
  class PidPosition {
    const motor: MotorDriver.MotorDriver

    constructor (motor: MotorDriver.MotorDriver)
      ensures this.motor == motor
    {
      this.motor := motor;
    }

    /** `PID_Position::hasOutput`: requests the change `output`. */
    method HasOutput(output: real)
      modifies motor`deltas
      ensures motor.deltas == old(motor.deltas) + [output]
    {
      motor.SetDutyCycleDelta(output);
    }
  }

  /** The inertial sensor's sink: the orientation estimator driving the
      controller. */
  class Mpu6050Feedback {
    const controller: Pid.Pid
    const sink: PidPosition
    const radius: real
    const samplePeriod: real
    const libm: Orientation.Libm
    /** The previous angular rate about z, radians per second. */
    var gzPrev: real

    /** `MPU6050_Feedback::MPU6050_Feedback`: no previous rate yet. */
    constructor (controller: Pid.Pid, sink: PidPosition, radius: real, samplePeriod: real, libm: Orientation.Libm)
      ensures this.controller == controller && this.sink == sink
      ensures this.radius == radius && this.samplePeriod == samplePeriod && this.libm == libm
      ensures gzPrev == 0.0
    {
      this.controller := controller;
      this.sink := sink;
      this.radius := radius;
      this.samplePeriod := samplePeriod;
      this.libm := libm;
      gzPrev := 0.0;
    }

    /** `MPU6050_Feedback::hasSample`: the same estimator as the dual loop's,
        one step on the angle and the output to the motor driver; the
        sample's rate about z is remembered whatever the angle. */
    method HasSample(s: Orientation.InertialSample)
      requires samplePeriod != 0.0 && controller.dt != 0.0
      requires Orientation.GravMag(libm, Orientation.AxGrav(s, gzPrev, radius, samplePeriod), Orientation.AyGrav(s, radius)) > 0.0
      modifies this`gzPrev, controller`preError, controller`integral, controller`delivered, sink.motor`deltas
      ensures gzPrev == Orientation.ToRadians(s.gz)
      ensures var angle := Orientation.Angle(libm, s, old(gzPrev), radius, samplePeriod);
        var step := Pid.Step(controller.Configuration(), old(controller.State()), controller.setpoint, angle);
        controller.State() == step.0 &&
        controller.delivered == old(controller.delivered) + [step.1] &&
        sink.motor.deltas == old(sink.motor.deltas) + [step.1]
    {
      var ayUnitsCorrected := s.ay * Orientation.StandardGravity;
      var gzUnitsCorrected := s.gz * Orientation.Pi / 180.0;
      var ayGrav := ayUnitsCorrected + gzUnitsCorrected * gzUnitsCorrected * radius;
      var axUnitsCorrected := s.ax * Orientation.StandardGravity;
      var axGrav := axUnitsCorrected + ((gzUnitsCorrected - gzPrev) / samplePeriod) * radius;
      assert axGrav == Orientation.AxGrav(s, gzPrev, radius, samplePeriod);
      assert ayGrav == Orientation.AyGrav(s, radius);
      ghost var angle := Orientation.Angle(libm, s, gzPrev, radius, samplePeriod);
      gzPrev := gzUnitsCorrected;
      var gravMag := Orientation.GravMag(libm, axGrav, ayGrav);
      var angularPos := libm.acos(ayGrav / gravMag);
      if axGrav > 0.0 {
        angularPos := -angularPos;
      }
      assert angularPos == angle;
      var output := controller.Calculate(angularPos);
      sink.HasOutput(output);
    }
  }

  /** The controller is built with the lowest and highest `double` as
      limits, and the motor's change of duty cycle is the raw sum of the three
      terms on the angle, with the sign the position controller gives it. */
  lemma {:induction false} OutputReachesMotorUnclamped(c: Pid.Config, m: Pid.Memory, setpoint: real, angle: real)
    requires c.dt != 0.0 && c.min == -Pid.DoubleMax && c.max == Pid.DoubleMax
    requires -Pid.DoubleMax <= Pid.RawOutput(c, m, setpoint, angle) <= Pid.DoubleMax
    ensures Pid.Step(c, m, setpoint, angle).1 == c.kp * (setpoint - angle) + c.ki * (m.integral + (setpoint - angle) * c.dt) + c.kd * ((setpoint - angle - m.preError) / c.dt)
  {
    Pid.UnboundedLimits(Pid.RawOutput(c, m, setpoint, angle));
  }
}
