/** The orientation estimator of the table's cup holder: from one inertial
    sample (acceleration in g, angular rate in degrees per second) and the
    previous angular rate about z, the angle of the holder from upright, in
    radians, positive clockwise seen from the back of the sensor.

    The Y acceleration is corrected for the centripetal acceleration of the
    rotation, the X acceleration for the tangential acceleration (the
    angular rate differenced over one sample period), and the angle is the
    arc cosine of the corrected Y component over the magnitude of the
    corrected pair, negated when the corrected X component is positive.

    `sqrt` and `acos` are the C library's: the model takes them as a pair of
    functions and states, as `Sound`, the facts about them it relies on. */
module Orientation {
  import Mpu6050

  /** Standard gravity, metres per second squared per g. */
  const StandardGravity: real := 9.80665

  /** The value of pi the source writes out. */
  const Pi: real := 3.14159265358979323846

  /** `std::sqrt` and `std::acos`. */
  datatype Libm = Libm(sqrt: real -> real, acos: real -> real)

  /** The square root of a non-negative number is the non-negative number
      whose square it is; the arc cosine of a number in [-1, 1] lies in
      [0, pi], and that of 1 is 0. */
  ghost predicate Sound(m: Libm) {
    (forall x :: 0.0 <= x ==> 0.0 <= m.sqrt(x) && m.sqrt(x) * m.sqrt(x) == x) &&
    (forall x :: -1.0 <= x <= 1.0 ==> 0.0 <= m.acos(x) <= Pi) &&
    m.acos(1.0) == 0.0
  }

  /** `MPU6050Sample`: accelerations in g, temperature in degrees Celsius,
      angular rates in degrees per second. */
  datatype InertialSample = InertialSample(ax: real, ay: real, az: real, temp: real, gx: real, gy: real, gz: real)

  /** Degrees per second to radians per second. */
  function ToRadians(deg: real): real {
    deg * Pi / 180.0
  }

  /** The Y acceleration in metres per second squared with the centripetal
      term `omega^2 * r` added. */
  function AyGrav(s: InertialSample, radius: real): real {
    var gz := ToRadians(s.gz);
    s.ay * StandardGravity + gz * gz * radius
  }

  /** The X acceleration in metres per second squared with the tangential
      term (the change of angular rate over the period, times the radius)
      added. */
  function AxGrav(s: InertialSample, gzPrev: real, radius: real, samplePeriod: real): real
    requires samplePeriod != 0.0
  {
    s.ax * StandardGravity + ((ToRadians(s.gz) - gzPrev) / samplePeriod) * radius
  }

  /** The magnitude of gravity in the XY plane. */
  function GravMag(m: Libm, axGrav: real, ayGrav: real): (r: real)
    ensures Sound(m) ==> 0.0 <= r && r * r == axGrav * axGrav + ayGrav * ayGrav
  {
    assert 0.0 <= axGrav * axGrav && 0.0 <= ayGrav * ayGrav;
    m.sqrt(axGrav * axGrav + ayGrav * ayGrav)
  }

  /** The angle from upright: the arc cosine of the corrected Y component over
      the magnitude, negative when the corrected X component is positive. */
  function Angle(m: Libm, s: InertialSample, gzPrev: real, radius: real, samplePeriod: real): real
    requires samplePeriod != 0.0
    requires GravMag(m, AxGrav(s, gzPrev, radius, samplePeriod), AyGrav(s, radius)) > 0.0
  {
    var axGrav := AxGrav(s, gzPrev, radius, samplePeriod);
    var ayGrav := AyGrav(s, radius);
    var angularPos := m.acos(ayGrav / GravMag(m, axGrav, ayGrav));
    if axGrav > 0.0 then -angularPos else angularPos
  }

  /** The centripetal term never lowers the Y acceleration when the radius is
      not negative. */
  lemma {:induction false} CentripetalRaises(s: InertialSample, radius: real)
    requires radius >= 0.0
    ensures AyGrav(s, radius) >= s.ay * StandardGravity
  {
    var gz := ToRadians(s.gz);
    assert gz * gz >= 0.0;
    assert gz * gz * radius >= 0.0;
  }

  /** With the angular rate unchanged since the last sample there is no
      tangential term; with no previous rate (0) the whole rate counts. */
  lemma TangentialTerm(s: InertialSample, gzPrev: real, radius: real, samplePeriod: real)
    requires samplePeriod != 0.0
    ensures gzPrev == ToRadians(s.gz) ==> AxGrav(s, gzPrev, radius, samplePeriod) == s.ax * StandardGravity
    ensures gzPrev == 0.0 ==>
      AxGrav(s, gzPrev, radius, samplePeriod) == s.ax * StandardGravity + (ToRadians(s.gz) / samplePeriod) * radius
  {
  }

  /** A component over the magnitude of a pair that contains it lies in
      [-1, 1], so the arc cosine is always taken inside its domain. */
  lemma {:induction false} CosineInDomain(m: Libm, axGrav: real, ayGrav: real)
    requires Sound(m) && GravMag(m, axGrav, ayGrav) > 0.0
    ensures -1.0 <= ayGrav / GravMag(m, axGrav, ayGrav) <= 1.0
  {
    var g := GravMag(m, axGrav, ayGrav);
    assert axGrav * axGrav >= 0.0;
    assert g * g == axGrav * axGrav + ayGrav * ayGrav;
    assert ayGrav * ayGrav <= g * g;
    if ayGrav > g {
      SquareGrows(g, ayGrav);
      assert false;
    }
    if ayGrav < -g {
      assert (-ayGrav) * (-ayGrav) == ayGrav * ayGrav;
      SquareGrows(g, -ayGrav);
      assert false;
    }
    DivideWithin(ayGrav, g);
  }

  lemma SquareGrows(y: real, x: real)
    requires 0.0 <= y < x
    ensures y * y < x * x
  {
    var d := x - y;
    assert x * x == (y + d) * (y + d) == y * y + 2.0 * y * d + d * d;
    assert y * d >= 0.0;
    assert d * d > 0.0;
  }

  lemma DivideWithin(a: real, g: real)
    requires g > 0.0 && -g <= a <= g
    ensures -1.0 <= a / g <= 1.0
  {
  }

  /** The angle lies in [-pi, pi]; it is not positive when the corrected X
      component is positive, and not negative otherwise. */
  lemma {:induction false} AngleRange(m: Libm, s: InertialSample, gzPrev: real, radius: real, samplePeriod: real)
    requires Sound(m) && samplePeriod != 0.0
    requires GravMag(m, AxGrav(s, gzPrev, radius, samplePeriod), AyGrav(s, radius)) > 0.0
    ensures -Pi <= Angle(m, s, gzPrev, radius, samplePeriod) <= Pi
    ensures AxGrav(s, gzPrev, radius, samplePeriod) > 0.0 ==> Angle(m, s, gzPrev, radius, samplePeriod) <= 0.0
    ensures AxGrav(s, gzPrev, radius, samplePeriod) <= 0.0 ==> Angle(m, s, gzPrev, radius, samplePeriod) >= 0.0
  {
    CosineInDomain(m, AxGrav(s, gzPrev, radius, samplePeriod), AyGrav(s, radius));
  }

  /** The non-negative square root of a positive square is its base. */
  lemma {:induction false} RootOfSquare(m: Libm, g: real)
    requires Sound(m) && g > 0.0
    ensures m.sqrt(g * g) == g
  {
    var r := m.sqrt(g * g);
    assert g * g >= 0.0;
    assert r >= 0.0 && r * r == g * g;
    assert (r - g) * (r + g) == 0.0;
    assert r + g > 0.0;
    assert r - g == ((r - g) * (r + g)) / (r + g);
  }

  /** An upright sensor at rest, 1 g on Y, no X acceleration and no rotation,
      with no previous rotation, is at angle 0. */
  lemma {:induction false} UprightIsZero(m: Libm, radius: real, samplePeriod: real)
    requires Sound(m) && samplePeriod != 0.0
    ensures var s := InertialSample(0.0, 1.0, 0.0, 0.0, 0.0, 0.0, 0.0);
      GravMag(m, AxGrav(s, 0.0, radius, samplePeriod), AyGrav(s, radius)) > 0.0 &&
      Angle(m, s, 0.0, radius, samplePeriod) == 0.0
  {
    var s := InertialSample(0.0, 1.0, 0.0, 0.0, 0.0, 0.0, 0.0);
    assert AyGrav(s, radius) == StandardGravity;
    assert AxGrav(s, 0.0, radius, samplePeriod) == 0.0;
    assert 0.0 * 0.0 + StandardGravity * StandardGravity == StandardGravity * StandardGravity;
    RootOfSquare(m, StandardGravity);
    assert GravMag(m, 0.0, StandardGravity) == StandardGravity;
  }

  /** The sample period the wiring gives the estimator: one plus the sample
      rate divider over the gyroscope output rate, 8 kHz with the filter off
      (BW_260Hz) or RESERVED, else 1 kHz. */
  function SamplePeriod(dlpf: Mpu6050.Dlpf, divider: nat): real {
    if dlpf == Mpu6050.BW_260Hz || dlpf == Mpu6050.RESERVED then
      (1 + divider) as real / 8000.0
    else
      (1 + divider) as real / 1000.0
  }

  /** The period is the reciprocal of the rate the sensor driver reports for
      the same filter and divider, and the wiring's BW_94Hz with divider 9
      gives 10 ms. */
  lemma {:induction false} PeriodIsReciprocalRate(dlpf: Mpu6050.Dlpf, divider: nat)
    ensures SamplePeriod(dlpf, divider) * Mpu6050.SampleRateHz(dlpf.Code(), divider) == 1.0
    ensures SamplePeriod(Mpu6050.BW_94Hz, 9) == 0.01
  {
    var n := (1 + divider) as real;
    var hz := Mpu6050.SampleRateHz(dlpf.Code(), divider);
    if dlpf == Mpu6050.BW_260Hz || dlpf == Mpu6050.RESERVED {
      assert Mpu6050.GyroOutputRateHz(dlpf.Code()) == 8000.0;
      Reciprocal(n, 8000.0, hz);
    } else {
      assert dlpf.Code() != 0 && dlpf.Code() != 7;
      assert Mpu6050.GyroOutputRateHz(dlpf.Code()) == 1000.0;
      Reciprocal(n, 1000.0, hz);
    }
  }

  lemma Reciprocal(n: real, rate: real, hz: real)
    requires rate > 0.0 && hz * n == rate
    ensures (n / rate) * hz == 1.0
  {
    assert (n / rate) * hz == (hz * n) / rate;
  }
}
