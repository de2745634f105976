/** The dual-loop cascade of the table: the inertial sensor's samples give
    the holder's angle, the process variable of the outer (position)
    controller; each outer output becomes the setpoint of the inner (torque)
    controller; the current sensor's samples are the inner controller's
    process variable; each inner output is sent to the motor driver as a
    negated duty-cycle change.

    A controller's sink is held by the feedback object that drives the
    controller, which hands each output to it as soon as `Calculate`
    returns. */
module DualLoop {
  import Pid
  import Orientation
  import MotorDriver
  import Ina260

  /** The inner controller's sink: a positive corrective torque asks for a
      negative change of duty cycle. */
  class PidMotorDriver {
    const motor: MotorDriver.MotorDriver

    constructor (motor: MotorDriver.MotorDriver)
      ensures this.motor == motor
    {
      this.motor := motor;
    }

    /** `PID_MotorDriver::hasOutput`: requests the change `-output`. */
    method HasOutput(output: real)
      modifies motor`deltas
      ensures motor.deltas == old(motor.deltas) + [-output]
    {
      motor.SetDutyCycleDelta(-output);
    }
  }

  /** The outer controller's sink: its output is the inner controller's
      setpoint. */
  class PidPosition {
    const controller: Pid.Pid

    constructor (controller: Pid.Pid)
      ensures this.controller == controller
    {
      this.controller := controller;
    }

    /** `PID_Position::hasOutput`: the inner setpoint becomes `output`. */
    method HasOutput(output: real)
      modifies controller`setpoint
      ensures controller.setpoint == output
    {
      controller.SetSetpoint(output);
    }
  }

  /** The current sensor's sink, driving the inner controller. */
  class Ina260Feedback {
    const controller: Pid.Pid
    const sink: PidMotorDriver

    constructor (controller: Pid.Pid, sink: PidMotorDriver)
      ensures this.controller == controller && this.sink == sink
    {
      this.controller := controller;
      this.sink := sink;
    }

    /** `INA260_Feedback::hasSample`: one inner step on the measured current
        and its output, negated, to the motor driver. */
    method HasSample(sample: Ina260.Sample)
      requires controller.dt != 0.0
      modifies controller`preError, controller`integral, controller`delivered, sink.motor`deltas
      ensures var step := Pid.Step(controller.Configuration(), old(controller.State()), controller.setpoint, sample.current);
        controller.State() == step.0 &&
        controller.delivered == old(controller.delivered) + [step.1] &&
        sink.motor.deltas == old(sink.motor.deltas) + [-step.1]
    {
      var output := controller.Calculate(sample.current);
      sink.HasOutput(output);
    }
  }

  /** The inertial sensor's sink: the orientation estimator driving the outer
      controller. */
  class Mpu6050Feedback {
    const controller: Pid.Pid
    const sink: PidPosition
    const radius: real
    const samplePeriod: real
    const libm: Orientation.Libm
    /** The previous angular rate about z, radians per second. */
    var gzPrev: real

    /** `MPU6050_Feedback::MPU6050_Feedback`: no previous rate yet. */
    constructor (controller: Pid.Pid, sink: PidPosition, radius: real, samplePeriod: real, libm: Orientation.Libm)
      ensures this.controller == controller && this.sink == sink
      ensures this.radius == radius && this.samplePeriod == samplePeriod && this.libm == libm
      ensures gzPrev == 0.0
    {
      this.controller := controller;
      this.sink := sink;
      this.radius := radius;
      this.samplePeriod := samplePeriod;
      this.libm := libm;
      gzPrev := 0.0;
    }

    /** `MPU6050_Feedback::hasSample`: the angle of the sample, one outer step
        on it, and the outer output as the inner setpoint; the sample's rate
        about z is remembered whatever the angle. */
    method HasSample(s: Orientation.InertialSample)
      requires samplePeriod != 0.0 && controller.dt != 0.0
      requires Orientation.GravMag(libm, Orientation.AxGrav(s, gzPrev, radius, samplePeriod), Orientation.AyGrav(s, radius)) > 0.0
      requires sink.controller != controller
      modifies this`gzPrev, controller`preError, controller`integral, controller`delivered, sink.controller`setpoint
      ensures gzPrev == Orientation.ToRadians(s.gz)
      ensures var angle := Orientation.Angle(libm, s, old(gzPrev), radius, samplePeriod);
        var step := Pid.Step(controller.Configuration(), old(controller.State()), old(controller.setpoint), angle);
        controller.State() == step.0 &&
        controller.delivered == old(controller.delivered) + [step.1] &&
        sink.controller.setpoint == step.1
    {
      var ayUnitsCorrected := s.ay * Orientation.StandardGravity;
      var gzUnitsCorrected := s.gz * Orientation.Pi / 180.0;
      var ayGrav := ayUnitsCorrected + gzUnitsCorrected * gzUnitsCorrected * radius;
      var axUnitsCorrected := s.ax * Orientation.StandardGravity;
      var axGrav := axUnitsCorrected + ((gzUnitsCorrected - gzPrev) / samplePeriod) * radius;
      assert axGrav == Orientation.AxGrav(s, gzPrev, radius, samplePeriod);
      assert ayGrav == Orientation.AyGrav(s, radius);
      ghost var angle := Orientation.Angle(libm, s, gzPrev, radius, samplePeriod);
      gzPrev := gzUnitsCorrected;
      var gravMag := Orientation.GravMag(libm, axGrav, ayGrav);
      var angularPos := libm.acos(ayGrav / gravMag);
      if axGrav > 0.0 {
        angularPos := -angularPos;
      }
      assert angularPos == angle;
      var output := controller.Calculate(angularPos);
      sink.HasOutput(output);
    }
  }

  /** The inner controller's period: the current conversion time the sensor
      is configured with (only current is converted). */
  function InaSamplePeriod(t: Ina260.ConvTime): real {
    if t == Ina260.TU140 then 0.000140
    else if t == Ina260.TU204 then 0.000204
    else if t == Ina260.TU332 then 0.000332
    else if t == Ina260.TU588 then 0.000588
    else if t == Ina260.TU1100 then 0.001100
    else if t == Ina260.TU2116 then 0.002116
    else if t == Ina260.TU4156 then 0.004156
    else 0.008224
  }

  /** The period is the code's conversion time in seconds, so it is never 0
      and the inner controller can always run on it. */
  lemma InaSamplePeriodIsConversionTime(t: Ina260.ConvTime)
    ensures InaSamplePeriod(t) * 1000000.0 == Ina260.ConvMicros(t) as real
    ensures InaSamplePeriod(t) > 0.0
  {
  }
}
