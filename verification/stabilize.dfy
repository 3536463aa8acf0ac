/**
 The fixed-point PID stabiliser of firmware/stabilize.cpp.

 Once per IMU tick, for each axis, the stabiliser turns the pilot's command,
 the gyro rate and (for roll and pitch) the estimated attitude angle into a
 corrective demand `axisPID`. It keeps a windup-clamped rate integral per
 axis, a windup-clamped angle integral for roll and pitch, and a
 three-sample derivative history. Roll and pitch blend an angle-holding
 (ACC) controller with a rate (GYRO) controller in proportion to the larger
 roll/pitch stick deflection; yaw uses the rate controller alone and its
 output is clamped around the yaw command.

 All quantities are the firmware's scaled integers; `CDiv` and `Asr` give
 `/` and `>>` their C++ meaning.
 */
module Stabilize {
  import opened FixedPoint

  datatype Axis = Roll | Pitch | Yaw

  /** One value per axis, like the firmware's `[3]` arrays. */
  datatype Triple = Triple(roll: int, pitch: int, yaw: int) {
    function Get(axis: Axis): int {
      match axis
      case Roll => roll
      case Pitch => pitch
      case Yaw => yaw
    }
  }

  /** One value per levelled axis, like the firmware's `errorAngleI[2]`. */
  datatype Pair = Pair(roll: int, pitch: int) {
    function Get(axis: Axis): int
      requires axis != Yaw
    {
      if axis == Roll then roll else pitch
    }
  }

  const ZERO: Triple := Triple(0, 0, 0)

  /** Windup bound of the rate integral `errorGyroI`. */
  const GYRO_WINDUP := 16000
  /** Windup bound of the angle integral `errorAngleI`. */
  const ANGLE_WINDUP := 10000
  /** A gyro rate above this magnitude zeroes that axis's rate integral. */
  const BIG_GYRO_RATE := 640
  /** A yaw command above this magnitude zeroes the yaw rate integral. */
  const BIG_YAW_COMMAND := 100
  /** The yaw output may exceed the yaw command's magnitude by this much. */
  const YAW_JUMP_MARGIN := 100
  /** Stick deflection at which the blend is pure rate control. */
  const FULL_DEFLECTION := 500

  /** The tuning constants the firmware's configuration header supplies
      (`CONFIG_RATE_PITCHROLL_P`, ..., `CONFIG_MAX_ANGLE_INCLINATION`).
      That header is not part of this model, so they are parameters. */
  datatype Config = Config(
    pitchRollP: int, pitchRollI: int, pitchRollD: int,
    yawP: int, yawI: int,
    levelP: int, levelI: int,
    maxAngleInclination: int)

  /** The `Stabilize` object: gains set by `init`, controller memory, and
      the last computed output `axisPID`. */
  datatype Stabilizer = Stabilizer(
    config: Config,
    rateP: Triple, rateI: Triple, rateD: Triple,
    errorGyroI: Triple, errorAngleI: Pair,
    lastGyro: Triple, delta1: Triple, delta2: Triple,
    axisPID: Triple)

  /** `update` divides by `rate_p[axis]` on every axis. */
  predicate RatesDefined(s: Stabilizer) {
    s.rateP.roll != 0 && s.rateP.pitch != 0 && s.rateP.yaw != 0
  }

  predicate IntegralsBounded(s: Stabilizer) {
    && (forall axis :: Abs(s.errorGyroI.Get(axis)) <= GYRO_WINDUP)
    && Abs(s.errorAngleI.roll) <= ANGLE_WINDUP
    && Abs(s.errorAngleI.pitch) <= ANGLE_WINDUP
  }

  predicate SameGains(s: Stabilizer, t: Stabilizer) {
    s.config == t.config && s.rateP == t.rateP && s.rateI == t.rateI && s.rateD == t.rateD
  }

  /** `Stabilize::init`: roll and pitch share the pitch/roll gains, yaw gets
      its own P and I and no D; history and integrals start at zero. The
      object lives in static storage, so `axisPID` is zero as well. */
  function Init(c: Config): (s: Stabilizer)
    ensures s.rateP == Triple(c.pitchRollP, c.pitchRollP, c.yawP)
    ensures s.rateI == Triple(c.pitchRollI, c.pitchRollI, c.yawI)
    ensures s.rateD == Triple(c.pitchRollD, c.pitchRollD, 0)
    ensures s.config == c
    ensures s.lastGyro == ZERO && s.delta1 == ZERO && s.delta2 == ZERO
    ensures s.errorGyroI == ZERO && s.errorAngleI == Pair(0, 0)
  {
    var blank := Stabilizer(
      c,
      Triple(c.pitchRollP, c.pitchRollP, c.yawP),
      Triple(c.pitchRollI, c.pitchRollI, c.yawI),
      Triple(c.pitchRollD, c.pitchRollD, 0),
      ZERO, Pair(0, 0), ZERO, ZERO, ZERO, ZERO);
    ResetIntegral(blank)
  }

  /** `Stabilize::resetIntegral`: forgets both integrals and nothing else. */
  function ResetIntegral(s: Stabilizer): (r: Stabilizer)
    ensures forall axis :: r.errorGyroI.Get(axis) == 0
    ensures r.errorAngleI.roll == 0 && r.errorAngleI.pitch == 0
    ensures SameGains(r, s)
    ensures r.lastGyro == s.lastGyro && r.delta1 == s.delta1 && r.delta2 == s.delta2
    ensures r.axisPID == s.axisPID
  {
    s.(errorGyroI := ZERO, errorAngleI := Pair(0, 0))
  }

  /** The rate error of one axis: the command scaled by 80 / rate_p, less
      the gyro rate. */
  function RateError(rc: int, gyro: int, rateP: int): int
    requires rateP != 0
  {
    CDiv(rc * 10 * 8, rateP) - gyro
  }

  /** The rate integral is forgotten on a fast rotation, and on yaw also
      under a large yaw command. */
  predicate GyroIntegralResets(axis: Axis, rc: Triple, gyro: Triple) {
    Abs(gyro.Get(axis)) > BIG_GYRO_RATE || (axis == Yaw && Abs(rc.yaw) > BIG_YAW_COMMAND)
  }

  /** The new rate integral of one axis: the clamped sum of the old integral
      and the rate error, unless the reset rule fires. */
  function GyroIntegral(axis: Axis, prev: int, error: int, rc: Triple, gyro: Triple): (i: int)
    ensures Abs(i) <= GYRO_WINDUP
    ensures GyroIntegralResets(axis, rc, gyro) ==> i == 0
    ensures !GyroIntegralResets(axis, rc, gyro) && Abs(prev + error) <= GYRO_WINDUP ==> i == prev + error
    ensures !GyroIntegralResets(axis, rc, gyro) && prev + error > GYRO_WINDUP ==> i == GYRO_WINDUP
    ensures !GyroIntegralResets(axis, rc, gyro) && prev + error < -GYRO_WINDUP ==> i == -GYRO_WINDUP
  {
    var clamped := Constrain(prev + error, -GYRO_WINDUP, GYRO_WINDUP);
    if GyroIntegralResets(axis, rc, gyro) then 0 else clamped
  }

  /** The levelling angle error, as the unparenthesised `constrain` macro
      expands when followed by `- angle`: the subtraction belongs to the
      macro's second branch only. When twice the command is below
      `-maxIncl` the error is `-maxIncl` and the measured angle is ignored;
      otherwise it is the clamped command less the angle. */
  function ErrorAngle(rc: int, angle: int, maxIncl: int): (e: int)
    ensures 2 * rc < -maxIncl ==> e == -maxIncl
    ensures -maxIncl <= 2 * rc <= maxIncl ==> e == 2 * rc - angle
    ensures -maxIncl <= maxIncl < 2 * rc ==> e == maxIncl - angle
    ensures 0 <= maxIncl ==>
      (e == Constrain(2 * rc, -maxIncl, maxIncl) - angle <==> (-maxIncl <= 2 * rc || angle == 0))
  {
    if 2 * rc < -maxIncl then -maxIncl else (if 2 * rc > maxIncl then maxIncl else 2 * rc) - angle
  }

  /** The blend proportion: the larger roll/pitch deflection. */
  function Prop(rc: Triple): (p: nat)
    ensures p >= Abs(rc.roll) && p >= Abs(rc.pitch)
    ensures p == Abs(rc.roll) || p == Abs(rc.pitch)
  {
    Max(Abs(rc.pitch), Abs(rc.roll))
  }

  /** Weighs an ACC term against a GYRO term by `prop / 500`, with the
      firmware's truncating division. For `prop` in [0, 500] the result is
      between the two terms; at the ends it is exactly one of them. */
  function Blend(acc: int, gyro: int, prop: int): (r: int)
    ensures prop == 0 ==> r == acc
    ensures prop == FULL_DEFLECTION ==> r == gyro
    ensures 0 <= prop <= FULL_DEFLECTION ==> Min(acc, gyro) <= r <= Max(acc, gyro)
  {
    var v := acc * (FULL_DEFLECTION - prop) + gyro * prop;
    if prop == 0 then
      assert v == acc * FULL_DEFLECTION;
      CDivOfMultiple(acc, FULL_DEFLECTION);
      CDiv(v, FULL_DEFLECTION)
    else if prop == FULL_DEFLECTION then
      assert v == gyro * FULL_DEFLECTION;
      CDivOfMultiple(gyro, FULL_DEFLECTION);
      CDiv(v, FULL_DEFLECTION)
    else if 0 < prop < FULL_DEFLECTION then
      BlendBetween(acc, gyro, prop);
      CDiv(v, FULL_DEFLECTION)
    else
      CDiv(v, FULL_DEFLECTION)
  }

  lemma BlendBetween(acc: int, gyro: int, prop: int)
    requires 0 <= prop <= FULL_DEFLECTION
    ensures Min(acc, gyro) <= CDiv(acc * (FULL_DEFLECTION - prop) + gyro * prop, FULL_DEFLECTION) <= Max(acc, gyro)
  {
    var w := FULL_DEFLECTION - prop;
    var lo, hi := Min(acc, gyro), Max(acc, gyro);
    MulMonotone(lo, acc, w);
    MulMonotone(lo, gyro, prop);
    MulMonotone(acc, hi, w);
    MulMonotone(gyro, hi, prop);
    assert lo * FULL_DEFLECTION == lo * w + lo * prop;
    assert hi * FULL_DEFLECTION == hi * w + hi * prop;
    CDivBetween(acc * w + gyro * prop, lo, hi, FULL_DEFLECTION);
  }

  /** The angle-levelling (ACC) side of a roll or pitch axis. */
  datatype Leveling =
    | RateOnly
    | Leveled(errorAngle: int, pTermAcc: int, errorAngleI: int, iTermAcc: int, prop: nat)

  /** Every intermediate of one axis's pass through the loop body of
      `Stabilize::update`. */
  datatype AxisTerms = AxisTerms(
    error: int, pTermGyro: int, errorGyroI: int, iTermGyro: int,
    level: Leveling,
    pBlend: int, iTerm: int, pTerm: int,
    delta: int, deltaSum: int, dTerm: int,
    pid: int)

  /** The ACC terms of a roll or pitch axis: proportional and integral
      parts of the angle error, with the integral clamped to its own
      windup bound. */
  function LevelingOf(s: Stabilizer, axis: Axis, rc: Triple, angle: Triple): (l: Leveling)
    requires axis != Yaw
    ensures l.Leveled?
    ensures Abs(l.errorAngleI) <= ANGLE_WINDUP
    ensures l.prop == 0 <==> rc.roll == 0 && rc.pitch == 0
  {
    var errorAngle := ErrorAngle(rc.Get(axis), angle.Get(axis), s.config.maxAngleInclination);
    var pTermAcc := CDiv(errorAngle * s.config.levelP, 100);
    var errorAngleI := Constrain(s.errorAngleI.Get(axis) + errorAngle, -ANGLE_WINDUP, ANGLE_WINDUP);
    var iTermAcc := Asr(errorAngleI * s.config.levelI, 12);
    Leveled(errorAngle, pTermAcc, errorAngleI, iTermAcc, Prop(rc))
  }

  /** One iteration of the per-axis loop of `Stabilize::update`. */
  function AxisStep(s: Stabilizer, axis: Axis, rc: Triple, gyro: Triple, angle: Triple): (t: AxisTerms)
    requires RatesDefined(s)
    ensures Abs(t.errorGyroI) <= GYRO_WINDUP
    ensures GyroIntegralResets(axis, rc, gyro) ==> t.errorGyroI == 0
    ensures t.level.Leveled? <==> axis != Yaw
    ensures t.level.Leveled? ==> Abs(t.level.errorAngleI) <= ANGLE_WINDUP
    ensures axis == Yaw ==> t.pBlend == t.pTermGyro == rc.yaw && t.iTerm == t.iTermGyro
    ensures axis == Yaw && s.rateD.yaw == 0 ==> t.dTerm == 0
    ensures axis != Yaw && rc.roll == 0 && rc.pitch == 0 ==>
      t.pBlend == t.level.pTermAcc && t.iTerm == t.level.iTermAcc
    ensures axis != Yaw && Prop(rc) == FULL_DEFLECTION ==>
      t.pBlend == t.pTermGyro && t.iTerm == t.iTermGyro
    ensures axis != Yaw && Prop(rc) <= FULL_DEFLECTION ==>
      && Min(t.level.pTermAcc, t.pTermGyro) <= t.pBlend <= Max(t.level.pTermAcc, t.pTermGyro)
      && Min(t.level.iTermAcc, t.iTermGyro) <= t.iTerm <= Max(t.level.iTermAcc, t.iTermGyro)
  {
    var rcAxis := rc.Get(axis);
    var g := gyro.Get(axis);
    var error := RateError(rcAxis, g, s.rateP.Get(axis));
    var pTermGyro := rcAxis;
    var errorGyroI := GyroIntegral(axis, s.errorGyroI.Get(axis), error, rc, gyro);
    var iTermGyro := Asr(CDiv(errorGyroI, 125) * s.rateI.Get(axis), 6);
    var level := if axis == Yaw then RateOnly else LevelingOf(s, axis, rc, angle);
    var pBlend := if level.Leveled? then Blend(level.pTermAcc, pTermGyro, level.prop) else pTermGyro;
    var iTerm := if level.Leveled? then Blend(level.iTermAcc, iTermGyro, level.prop) else iTermGyro;
    var pTerm := pBlend - CDiv(CDiv(g * s.rateP.Get(axis), 10), 8);
    var delta := g - s.lastGyro.Get(axis);
    var deltaSum := s.delta1.Get(axis) + s.delta2.Get(axis) + delta;
    var dTerm := CDiv(deltaSum * s.rateD.Get(axis), 32);
    AxisTerms(error, pTermGyro, errorGyroI, iTermGyro, level, pBlend, iTerm, pTerm,
              delta, deltaSum, dTerm, pTerm + iTerm - dTerm)
  }

  /** `Stabilize::update(rcCommand, gyroADC, angle)`: runs the three axes
      (only the roll, pitch and yaw commands are read) and then clamps the
      yaw output to within `100 + |rcCommand[yaw]|` of zero. */
  function Update(s: Stabilizer, rc: Triple, gyro: Triple, angle: Triple): (r: Stabilizer)
    requires RatesDefined(s)
    ensures IntegralsBounded(r)
    ensures forall axis :: Abs(gyro.Get(axis)) > BIG_GYRO_RATE ==> r.errorGyroI.Get(axis) == 0
    ensures Abs(rc.yaw) > BIG_YAW_COMMAND ==> r.errorGyroI.yaw == 0
    ensures -YAW_JUMP_MARGIN - Abs(rc.yaw) <= r.axisPID.yaw <= YAW_JUMP_MARGIN + Abs(rc.yaw)
    ensures r.lastGyro == gyro
    ensures forall axis :: r.delta1.Get(axis) == gyro.Get(axis) - s.lastGyro.Get(axis)
    ensures r.delta2 == s.delta1
    ensures SameGains(r, s)
  {
    var tr := AxisStep(s, Roll, rc, gyro, angle);
    var tp := AxisStep(s, Pitch, rc, gyro, angle);
    var ty := AxisStep(s, Yaw, rc, gyro, angle);
    s.(
      errorGyroI := Triple(tr.errorGyroI, tp.errorGyroI, ty.errorGyroI),
      errorAngleI := Pair(tr.level.errorAngleI, tp.level.errorAngleI),
      lastGyro := gyro,
      delta1 := Triple(tr.delta, tp.delta, ty.delta),
      delta2 := s.delta1,
      axisPID := Triple(tr.pid, tp.pid,
                        Constrain(ty.pid, -YAW_JUMP_MARGIN - Abs(rc.yaw), YAW_JUMP_MARGIN + Abs(rc.yaw))))
  }

  /** After `resetIntegral`, the next `update` leaves integrals that depend
      on that tick's inputs alone: the rate integral is the single-sample
      rate error (clamped, or zeroed by the reset rule), the angle integral
      the single-sample angle error (clamped). */
  lemma ResetForgetsHistory(s: Stabilizer, rc: Triple, gyro: Triple, angle: Triple)
    requires RatesDefined(s)
    ensures var r := Update(ResetIntegral(s), rc, gyro, angle);
      && (forall axis :: r.errorGyroI.Get(axis)
            == GyroIntegral(axis, 0, RateError(rc.Get(axis), gyro.Get(axis), s.rateP.Get(axis)), rc, gyro))
      && r.errorAngleI.roll
           == Constrain(ErrorAngle(rc.roll, angle.roll, s.config.maxAngleInclination), -ANGLE_WINDUP, ANGLE_WINDUP)
      && r.errorAngleI.pitch
           == Constrain(ErrorAngle(rc.pitch, angle.pitch, s.config.maxAngleInclination), -ANGLE_WINDUP, ANGLE_WINDUP)
  {
  }

  /** The derivative term looks three ticks back: after three updates, the
      next update's `deltaSum` is the change in gyro rate since the first
      of them, whatever the history was before. */
  lemma DerivativeSpansThreeTicks(s: Stabilizer, rc: Triple, angle: Triple, axis: Axis,
                                  g1: Triple, g2: Triple, g3: Triple, g4: Triple)
    requires RatesDefined(s)
    ensures var s3 := Update(Update(Update(s, rc, g1, angle), rc, g2, angle), rc, g3, angle);
      AxisStep(s3, axis, rc, g4, angle).deltaSum == g4.Get(axis) - g1.Get(axis)
  {
  }

  /** A freshly initialised stabiliser at rest (zero command, rate and
      angle) outputs zero on every axis and stays as it was. */
  lemma InitIsAtRest(c: Config)
    requires c.pitchRollP != 0 && c.yawP != 0 && c.maxAngleInclination >= 0
    ensures Update(Init(c), ZERO, ZERO, ZERO).axisPID == ZERO
    ensures Update(Init(c), ZERO, ZERO, ZERO) == Init(c)
  {
    var s := Init(c);
    AxisAtRest(s, Roll);
    AxisAtRest(s, Pitch);
    AxisAtRest(s, Yaw);
  }

  lemma AxisAtRest(s: Stabilizer, axis: Axis)
    requires RatesDefined(s) && s.config.maxAngleInclination >= 0
    requires s.lastGyro == ZERO && s.delta1 == ZERO && s.delta2 == ZERO
    requires s.errorGyroI == ZERO && s.errorAngleI == Pair(0, 0)
    ensures var t := AxisStep(s, axis, ZERO, ZERO, ZERO);
      && t.errorGyroI == 0 && t.delta == 0 && t.pid == 0
      && (axis != Yaw ==> t.level.errorAngleI == 0)
  {
    var t := AxisStep(s, axis, ZERO, ZERO, ZERO);
    RateTermsAtRest(s, axis);
    assert t.errorGyroI == 0 && t.iTermGyro == 0;
    if axis != Yaw {
      LevelingAtRest(s, axis);
      assert t.level == Leveled(0, 0, 0, 0, 0);
      CDivOfZero(FULL_DEFLECTION);
      assert t.pBlend == 0 && t.iTerm == 0;
    }
    assert t.delta == 0 && t.deltaSum == 0;
    CDivOfZero(32);
    assert t.dTerm == 0;
    CDivOfZero(10);
    CDivOfZero(8);
    assert t.pTerm == t.pBlend;
  }

  lemma RateTermsAtRest(s: Stabilizer, axis: Axis)
    requires RatesDefined(s)
    ensures RateError(0, 0, s.rateP.Get(axis)) == 0
    ensures GyroIntegral(axis, 0, 0, ZERO, ZERO) == 0
    ensures Asr(CDiv(0, 125) * s.rateI.Get(axis), 6) == 0
  {
    CDivOfZero(s.rateP.Get(axis));
    CDivOfZero(125);
    AsrOfZero(6);
  }

  lemma LevelingAtRest(s: Stabilizer, axis: Axis)
    requires axis != Yaw && s.config.maxAngleInclination >= 0
    requires s.errorAngleI == Pair(0, 0)
    ensures LevelingOf(s, axis, ZERO, ZERO) == Leveled(0, 0, 0, 0, 0)
  {
    assert ErrorAngle(0, 0, s.config.maxAngleInclination) == 0;
    CDivOfZero(100);
    AsrOfZero(12);
  }
}
