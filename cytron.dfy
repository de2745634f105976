/** The Cytron motor driver on wiringPi: one PWM pin for the speed and two
    direction pins, HIGH/LOW forward and LOW/HIGH reverse.  A speed is
    clamped to [-255, 255]; its sign picks the direction and its magnitude
    is written to the PWM pin.

    Every pin write is recorded, in order, in a ghost log; the levels of the
    two direction pins are fields. */
module Cytron {

  datatype Level = Low | High

  /** One write to a pin: a digital level or a PWM value. */
  datatype PinWrite = Digital(pin: int, level: Level) | Pwm(pin: int, value: int)

  const SpeedMax: int := 255

  /** The speed limited to [-255, 255]. */
  function ClampSpeed(speed: int): (r: int)
    ensures -SpeedMax <= r <= SpeedMax
    ensures -SpeedMax <= speed <= SpeedMax ==> r == speed
    ensures speed > SpeedMax ==> r == SpeedMax
    ensures speed < -SpeedMax ==> r == -SpeedMax
  {
    if speed > SpeedMax then SpeedMax else if speed < -SpeedMax then -SpeedMax else speed
  }

  /** The writes of one `setSpeed`, in order: direction pin 1, direction
      pin 2, then the magnitude to the PWM pin. */
  function SpeedWrites(pwmPin: int, dirPin1: int, dirPin2: int, speed: int): seq<PinWrite> {
    var s := ClampSpeed(speed);
    if s >= 0 then [Digital(dirPin1, High), Digital(dirPin2, Low), Pwm(pwmPin, s)]
    else [Digital(dirPin1, Low), Digital(dirPin2, High), Pwm(pwmPin, -s)]
  }

  /** The signed speed a driver reads off one `setSpeed`'s writes: the PWM
      value, negated when direction pin 1 went low. */
  function SignedSpeed(writes: seq<PinWrite>): int
    requires |writes| == 3 && writes[0].Digital? && writes[2].Pwm?
  {
    if writes[0].level == High then writes[2].value else -writes[2].value
  }

  /** The direction pins always end at opposite levels, the PWM value is
      always in [0, 255], pin 1 goes high exactly for a non-negative speed,
      and the direction and magnitude together give back the clamped
      speed. */
  lemma {:induction false} SpeedWritesMeaning(pwmPin: int, dirPin1: int, dirPin2: int, speed: int)
    ensures var w := SpeedWrites(pwmPin, dirPin1, dirPin2, speed);
      |w| == 3 && w[0].Digital? && w[1].Digital? && w[2].Pwm? &&
      w[0].pin == dirPin1 && w[1].pin == dirPin2 && w[2].pin == pwmPin &&
      w[0].level != w[1].level &&
      0 <= w[2].value <= SpeedMax &&
      (w[0].level == High <==> speed >= 0) &&
      SignedSpeed(w) == ClampSpeed(speed)
  {
    var s := ClampSpeed(speed);
    assert s >= 0 <==> speed >= 0;
  }

  class CytronMd {
    const pwmPin: int
    const dirPin1: int
    const dirPin2: int
    var dir1: Level
    var dir2: Level
    /** Every pin write, in order. */
    ghost var writes: seq<PinWrite>

    /** `CytronMD::CytronMD`: both direction pins are driven low, so the
        motor does not start. */
    constructor (pwmPin: int, dirPin1: int, dirPin2: int)
      ensures this.pwmPin == pwmPin && this.dirPin1 == dirPin1 && this.dirPin2 == dirPin2
      ensures dir1 == Low && dir2 == Low
      ensures writes == [Digital(dirPin1, Low), Digital(dirPin2, Low)]
    {
      this.pwmPin := pwmPin;
      this.dirPin1 := dirPin1;
      this.dirPin2 := dirPin2;
      dir1 := Low;
      writes := [Digital(dirPin1, Low)];
      dir2 := Low;
      writes := writes + [Digital(dirPin2, Low)];
    }

    /** `setSpeed`: the clamped speed's direction on the two pins and its
        magnitude on the PWM pin. */
    method SetSpeed(speed: int)
      modifies this`dir1, this`dir2, this`writes
      ensures writes == old(writes) + SpeedWrites(pwmPin, dirPin1, dirPin2, speed)
      ensures dir1 == (if ClampSpeed(speed) >= 0 then High else Low)
      ensures dir2 == (if ClampSpeed(speed) >= 0 then Low else High)
    {
      var s := speed;
      if s > SpeedMax {
        s := SpeedMax;
      } else if s < -SpeedMax {
        s := -SpeedMax;
      }
      if s >= 0 {
        dir1 := High;
        writes := writes + [Digital(dirPin1, High)];
        dir2 := Low;
        writes := writes + [Digital(dirPin2, Low)];
      } else {
        dir1 := Low;
        writes := writes + [Digital(dirPin1, Low)];
        dir2 := High;
        writes := writes + [Digital(dirPin2, High)];
        s := -s;
      }
      writes := writes + [Pwm(pwmPin, s)];
    }
  }
}
