/** The PID controller: a proportional, integral and derivative term on the
    error between a setpoint and a process variable, summed, clamped to an
    output range and handed to the controller's sink.

    `double` is modelled as `real`.  The sink (`PID_Interface::hasOutput`)
    is the ghost sequence `delivered` of every output handed over, in order;
    the wiring that owns a controller passes the same value on to its own
    sink as soon as `Calculate` returns. */
module Pid {

  /** `std::numeric_limits<double>::max()`; `lowest()` is its negation. */
  const DoubleMax: real := 179769313486231570814527423731704356798070567525844996598917476803157260780028538760589558632766878171540458953514382464234321326889464182768467546703537516986049910576551282076245490090389328944075868508455133942304583236903222948165808559332123348274797826204144723168738177180919299881250404026184124858368.0

  /** What a controller is built with and never changes. */
  datatype Config = Config(dt: real, max: real, min: real, kp: real, kd: real, ki: real)

  /** What a controller remembers between calls: the previous error (the
      derivative's memory) and the integral accumulator. */
  datatype Memory = Memory(preError: real, integral: real)

  /** The memory of a freshly built controller. */
  const Fresh := Memory(0.0, 0.0)

  /** The output restricted to the range: above `max` gives `max`, else below
      `min` gives `min`. */
  function Clamp(x: real, min: real, max: real): (r: real)
    ensures min <= max ==> min <= r <= max
    ensures min <= x <= max ==> r == x
    ensures r == x || r == min || r == max
  {
    if x > max then max else if x < min then min else x
  }

  /** The sum of the three terms, the integral term on the already updated
      accumulator. */
  function RawOutput(c: Config, m: Memory, setpoint: real, pv: real): real
    requires c.dt != 0.0
  {
    var error := setpoint - pv;
    c.kp * error + c.ki * (m.integral + error * c.dt) + c.kd * ((error - m.preError) / c.dt)
  }

  /** The memory one `calculate(pv)` leaves: the error, and the integral with
      error times period added. */
  function NextMemory(c: Config, m: Memory, setpoint: real, pv: real): Memory {
    var error := setpoint - pv;
    Memory(error, m.integral + error * c.dt)
  }

  /** The output one `calculate(pv)` delivers: the raw sum, clamped. */
  function Output(c: Config, m: Memory, setpoint: real, pv: real): (r: real)
    requires c.dt != 0.0
    ensures c.min <= c.max ==> c.min <= r <= c.max
  {
    Clamp(RawOutput(c, m, setpoint, pv), c.min, c.max)
  }

  /** One `calculate(pv)`: the new memory and the output delivered. */
  function Step(c: Config, m: Memory, setpoint: real, pv: real): (Memory, real)
    requires c.dt != 0.0
  {
    (NextMemory(c, m, setpoint, pv), Output(c, m, setpoint, pv))
  }

  /** A call remembers the unclamped error and adds error times period to
      the integral, whatever the clamp did to the output (there is no
      anti-windup); the output is within the range when the range is not
      empty, and is the raw sum whenever that already is. */
  lemma StepMeaning(c: Config, m: Memory, setpoint: real, pv: real)
    requires c.dt != 0.0
    ensures Step(c, m, setpoint, pv).0.preError == setpoint - pv
    ensures Step(c, m, setpoint, pv).0.integral - m.integral == (setpoint - pv) * c.dt
    ensures c.min <= c.max ==> c.min <= Step(c, m, setpoint, pv).1 <= c.max
    ensures c.min <= RawOutput(c, m, setpoint, pv) <= c.max ==>
      Step(c, m, setpoint, pv).1 == RawOutput(c, m, setpoint, pv)
  {
  }

  /** The raw output is linear in the setpoint: moving the setpoint by `d`
      moves it by `d` times the combined gain `kp + ki * dt + kd / dt`. */
  lemma {:induction false} SetpointShift(c: Config, m: Memory, setpoint: real, d: real, pv: real)
    requires c.dt != 0.0
    ensures RawOutput(c, m, setpoint + d, pv) - RawOutput(c, m, setpoint, pv) ==
      d * (c.kp + c.ki * c.dt + c.kd / c.dt)
  {
    var e := setpoint - pv;
    assert (e + d - m.preError) / c.dt - (e - m.preError) / c.dt == d / c.dt;
    assert c.kd * ((e + d - m.preError) / c.dt) - c.kd * ((e - m.preError) / c.dt) == c.kd * (d / c.dt);
    assert c.kd * (d / c.dt) == d * (c.kd / c.dt);
    assert c.ki * (m.integral + (e + d) * c.dt) - c.ki * (m.integral + e * c.dt) == d * (c.ki * c.dt);
    assert c.kp * (e + d) - c.kp * e == d * c.kp;
  }

  /** With the limits of the single-loop wiring (lowest and highest
      `double`) the clamp passes every finite output through unchanged. */
  lemma UnboundedLimits(x: real)
    requires -DoubleMax <= x <= DoubleMax
    ensures Clamp(x, -DoubleMax, DoubleMax) == x
  {
  }

  /** The memory after successive calls with a fixed setpoint. */
  function Settle(c: Config, m: Memory, setpoint: real, pvs: seq<real>): Memory
    decreases |pvs|
  {
    if pvs == [] then m else Settle(c, NextMemory(c, m, setpoint, pvs[0]), setpoint, pvs[1..])
  }

  /** Every output of successive calls with a fixed setpoint, in order. */
  function Outputs(c: Config, m: Memory, setpoint: real, pvs: seq<real>): (r: seq<real>)
    requires c.dt != 0.0
    ensures |r| == |pvs|
    decreases |pvs|
  {
    if pvs == [] then []
    else [Output(c, m, setpoint, pvs[0])] + Outputs(c, NextMemory(c, m, setpoint, pvs[0]), setpoint, pvs[1..])
  }

  /** What a run adds to the integral: each error times the period. */
  function Accumulated(dt: real, setpoint: real, pvs: seq<real>): real
    decreases |pvs|
  {
    if pvs == [] then 0.0 else (setpoint - pvs[0]) * dt + Accumulated(dt, setpoint, pvs[1..])
  }

  /** The integral after a run is the integral before plus every error times
      the period: nothing is ever discarded, whatever the clamp did. */
  lemma {:induction false} RunIntegral(c: Config, m: Memory, setpoint: real, pvs: seq<real>)
    ensures Settle(c, m, setpoint, pvs).integral == m.integral + Accumulated(c.dt, setpoint, pvs)
    decreases |pvs|
  {
    if pvs != [] {
      RunIntegral(c, NextMemory(c, m, setpoint, pvs[0]), setpoint, pvs[1..]);
    }
  }

  /** `n` copies of `pv`. */
  function Repeat(pv: real, n: nat): (r: seq<real>)
    ensures |r| == n && forall i :: 0 <= i < n ==> r[i] == pv
  {
    if n == 0 then [] else [pv] + Repeat(pv, n - 1)
  }

  /** `n` calls with the same error add `n` times error times period. */
  lemma {:induction false} ConstantAccumulated(dt: real, setpoint: real, pv: real, n: nat)
    ensures Accumulated(dt, setpoint, Repeat(pv, n)) == n as real * (setpoint - pv) * dt
  {
    if n > 0 {
      assert Repeat(pv, n)[1..] == Repeat(pv, n - 1);
      ConstantAccumulated(dt, setpoint, pv, n - 1);
      assert n as real * (setpoint - pv) * dt == (setpoint - pv) * dt + (n - 1) as real * (setpoint - pv) * dt;
    }
  }

  /** After `n` calls with the same error the integral has grown by
      `n * error * dt`. */
  lemma {:induction false} ConstantErrorIntegral(c: Config, m: Memory, setpoint: real, pv: real, n: nat)
    ensures Settle(c, m, setpoint, Repeat(pv, n)).integral == m.integral + n as real * (setpoint - pv) * c.dt
  {
    RunIntegral(c, m, setpoint, Repeat(pv, n));
    ConstantAccumulated(c.dt, setpoint, pv, n);
  }

  /** Every output of a run lies in the range when the range is not
      empty. */
  lemma {:induction false} RunBounded(c: Config, m: Memory, setpoint: real, pvs: seq<real>)
    requires c.dt != 0.0 && c.min <= c.max
    ensures forall i :: 0 <= i < |pvs| ==> c.min <= Outputs(c, m, setpoint, pvs)[i] <= c.max
    decreases |pvs|
  {
    if pvs != [] {
      RunBounded(c, NextMemory(c, m, setpoint, pvs[0]), setpoint, pvs[1..]);
    }
  }

  /** A run remembers the error of its last call and no earlier one. */
  lemma {:induction false} RunRemembersLast(c: Config, m: Memory, setpoint: real, pvs: seq<real>)
    requires pvs != []
    ensures Settle(c, m, setpoint, pvs).preError == setpoint - pvs[|pvs| - 1]
    decreases |pvs|
  {
    if |pvs| > 1 {
      RunRemembersLast(c, NextMemory(c, m, setpoint, pvs[0]), setpoint, pvs[1..]);
      assert pvs[1..][|pvs[1..]| - 1] == pvs[|pvs| - 1];
    }
  }

  /** The unit test's controller: setpoint 50, period 0.1, range [0, 100],
      Kp 0.1, Kd 0.01, Ki 0.05. */
  const TestConfig := Config(0.1, 100.0, 0.0, 0.1, 0.01, 0.05)

  /** A fresh controller fed 45 delivers 1.025 (0.5 proportional, 0.025
      integral, 0.5 derivative); fed 45 again it delivers 0.55, the
      derivative term now 0. */
  lemma TestScenario()
    ensures Step(TestConfig, Fresh, 50.0, 45.0).1 == 1.025
    ensures Outputs(TestConfig, Fresh, 50.0, [45.0, 45.0]) == [1.025, 0.55]
  {
    var first := Step(TestConfig, Fresh, 50.0, 45.0);
    assert first.0 == Memory(5.0, 0.5);
    assert Step(TestConfig, first.0, 50.0, 45.0).1 == 0.55;
    assert [45.0, 45.0][1..][1..] == [];
  }

  /** The controller. */
  class Pid {
    const dt: real
    const max: real
    const min: real
    const kp: real
    const kd: real
    const ki: real
    var setpoint: real
    var preError: real
    var integral: real
    /** Every output handed to the sink, in order. */
    ghost var delivered: seq<real>

    function Configuration(): Config {
      Config(dt, max, min, kp, kd, ki)
    }

    function State(): Memory
      reads this
    {
      Memory(preError, integral)
    }

    /** `PID::PID`: the configuration as given, no memory, nothing
        delivered yet. */
    constructor (setpoint: real, dt: real, max: real, min: real, kp: real, kd: real, ki: real)
      ensures Configuration() == Config(dt, max, min, kp, kd, ki)
      ensures this.setpoint == setpoint && State() == Fresh && delivered == []
    {
      this.dt := dt;
      this.max := max;
      this.min := min;
      this.kp := kp;
      this.kd := kd;
      this.ki := ki;
      this.preError := 0.0;
      this.integral := 0.0;
      this.setpoint := setpoint;
      delivered := [];
    }

    /** `setSetpoint`: the setpoint becomes `setpoint` exactly, nothing else
        changes, so a second call with the same value changes nothing. */
    method SetSetpoint(setpoint: real)
      modifies this`setpoint
      ensures this.setpoint == setpoint
    {
      this.setpoint := setpoint;
    }

    /** `calculate`: one step on the current setpoint, its output handed to
        the sink once, after the memory is updated. */
    method Calculate(pv: real) returns (output: real)
      requires dt != 0.0
      modifies this`preError, this`integral, this`delivered
      ensures (State(), output) == Step(Configuration(), old(State()), setpoint, pv)
      ensures delivered == old(delivered) + [output]
    {
      var error := setpoint - pv;
      var pOut := kp * error;
      integral := integral + error * dt;
      var iOut := ki * integral;
      var derivative := (error - preError) / dt;
      var dOut := kd * derivative;
      output := pOut + iOut + dOut;
      ghost var step := Step(Configuration(), old(State()), setpoint, pv);
      assert output == RawOutput(Configuration(), old(State()), setpoint, pv);
      assert step.1 == Clamp(output, min, max);
      if output > max {
        output := max;
      } else if output < min {
        output := min;
      }
      preError := error;
      delivered := delivered + [output];
      assert State() == step.0;
    }
  }
}
