/**
 The stabiliser model computes with unbounded integers. This module shows
 that, for the ranges the firmware works in, every intermediate value of
 `Stabilize::update` fits the `int32_t` arithmetic the firmware does, so
 no signed overflow occurs and the unbounded model computes the same
 values as the firmware.

 The ranges: stick commands within [-500, 500] (the range the blend is
 designed for); gyro rates and angles any `int16_t`; the configuration
 gains `uint8_t`-sized with a positive rate P; the maximum inclination at
 most 1000. The gain types come from a configuration header that is not
 part of this model, so these are assumptions about it. So are the widths
 of the stabiliser's members: `delta1`/`delta2` must hold a difference of
 two `int16_t` rates, the maximum inclination must promote to a signed
 `int`, and the gains must promote to `int` so that the shifts are
 arithmetic.
 */
module StabilizeRange {
  import opened FixedPoint
  import opened Stabilize

  predicate Gain(x: int) {
    0 <= x <= 255
  }

  predicate GainsInRange(s: Stabilizer) {
    && (forall axis :: 1 <= s.rateP.Get(axis) <= 255)
    && (forall axis :: Gain(s.rateI.Get(axis)))
    && (forall axis :: Gain(s.rateD.Get(axis)))
    && Gain(s.config.levelP) && Gain(s.config.levelI)
    && 0 <= s.config.maxAngleInclination <= 1000
  }

  predicate InputsInRange(rc: Triple, gyro: Triple, angle: Triple) {
    && Abs(rc.roll) <= FULL_DEFLECTION && Abs(rc.pitch) <= FULL_DEFLECTION && Abs(rc.yaw) <= FULL_DEFLECTION
    && (forall axis :: IsInt16(gyro.Get(axis)))
    && (forall axis :: IsInt16(angle.Get(axis)))
  }

  /** The controller memory the firmware keeps between ticks, within the
      ranges `update` itself produces. */
  predicate MemoryInRange(s: Stabilizer) {
    && IntegralsBounded(s)
    && (forall axis :: IsInt16(s.lastGyro.Get(axis)))
    && (forall axis :: Abs(s.delta1.Get(axis)) <= 0xFFFF)
    && (forall axis :: Abs(s.delta2.Get(axis)) <= 0xFFFF)
  }

  lemma InitMemoryInRange(c: Config)
    ensures MemoryInRange(Init(c))
  {
  }

  /** `update` keeps the memory in range, whatever the inputs in range. */
  lemma UpdateKeepsMemoryInRange(s: Stabilizer, rc: Triple, gyro: Triple, angle: Triple)
    requires RatesDefined(s)
    requires InputsInRange(rc, gyro, angle) && MemoryInRange(s)
    ensures MemoryInRange(Update(s, rc, gyro, angle))
  {
  }

  lemma RateErrorFits(rc: int, g: int, rateP: int)
    requires Abs(rc) <= FULL_DEFLECTION && IsInt16(g) && 1 <= rateP <= 255
    ensures Abs(rc * 10 * 8) <= 40000
    ensures Abs(RateError(rc, g, rateP)) <= 40000 + 0x8000
  {
    CDivShrinks(rc * 10 * 8, rateP);
  }

  lemma GyroITermFits(errorGyroI: int, rateI: int)
    requires Abs(errorGyroI) <= GYRO_WINDUP && Gain(rateI)
    ensures Abs(CDiv(errorGyroI, 125) * rateI) <= 128 * 255
    ensures Abs(Asr(CDiv(errorGyroI, 125) * rateI, 6)) <= 128 * 255
  {
    var q := CDiv(errorGyroI, 125);
    CDivMagnitude(errorGyroI, 125);
    MulBound(q, 128, rateI, 255);
    AsrShrinks(q * rateI, 6);
  }

  lemma DampingFits(g: int, rateP: int)
    requires IsInt16(g) && 1 <= rateP <= 255
    ensures Abs(g * rateP) <= 0x8000 * 255
    ensures Abs(CDiv(CDiv(g * rateP, 10), 8)) <= 0x8000 * 255
  {
    MulBound(g, 0x8000, rateP, 255);
    CDivShrinks(g * rateP, 10);
    CDivShrinks(CDiv(g * rateP, 10), 8);
  }

  lemma DerivativeFits(deltaSum: int, rateD: int)
    requires Abs(deltaSum) <= 3 * 0xFFFF && Gain(rateD)
    ensures Abs(deltaSum * rateD) <= 3 * 0xFFFF * 255
    ensures Abs(CDiv(deltaSum * rateD, 32)) <= 3 * 0xFFFF * 255
  {
    MulBound(deltaSum, 3 * 0xFFFF, rateD, 255);
    CDivShrinks(deltaSum * rateD, 32);
  }

  lemma LevelingFits(s: Stabilizer, axis: Axis, rc: Triple, angle: Triple)
    requires axis != Yaw
    requires GainsInRange(s) && InputsInRange(rc, ZERO, angle) && MemoryInRange(s)
    ensures var l := LevelingOf(s, axis, rc, angle);
      && Abs(2 * rc.Get(axis)) <= 1000
      && Abs(l.errorAngle) <= 1000 + 0x8000
      && Abs(l.errorAngle * s.config.levelP) <= (1000 + 0x8000) * 255
      && Abs(l.pTermAcc) <= 86108
      && Abs(s.errorAngleI.Get(axis) + l.errorAngle) <= ANGLE_WINDUP + 1000 + 0x8000
      && Abs(l.errorAngleI * s.config.levelI) <= ANGLE_WINDUP * 255
      && Abs(l.iTermAcc) <= ANGLE_WINDUP * 255
      && l.prop <= FULL_DEFLECTION
  {
    var l := LevelingOf(s, axis, rc, angle);
    assert IsInt16(angle.Get(axis));
    MulBound(l.errorAngle, 1000 + 0x8000, s.config.levelP, 255);
    CDivMagnitude(l.errorAngle * s.config.levelP, 100);
    MulBound(l.errorAngleI, ANGLE_WINDUP, s.config.levelI, 255);
    AsrShrinks(l.errorAngleI * s.config.levelI, 12);
  }

  lemma BlendFits(acc: int, boundAcc: nat, gyro: int, boundGyro: nat, prop: int)
    requires Abs(acc) <= boundAcc && Abs(gyro) <= boundGyro && 0 <= prop <= FULL_DEFLECTION
    ensures Abs(acc * (FULL_DEFLECTION - prop)) <= boundAcc * FULL_DEFLECTION
    ensures Abs(gyro * prop) <= boundGyro * FULL_DEFLECTION
  {
    MulBound(acc, boundAcc, FULL_DEFLECTION - prop, FULL_DEFLECTION);
    MulBound(gyro, boundGyro, prop, FULL_DEFLECTION);
  }

  /** The facts about one axis's inputs and memory that the bounds below
      start from. */
  lemma AxisInputs(s: Stabilizer, axis: Axis, rc: Triple, gyro: Triple, angle: Triple)
    requires GainsInRange(s) && InputsInRange(rc, gyro, angle) && MemoryInRange(s)
    ensures RatesDefined(s)
    ensures Abs(rc.Get(axis)) <= FULL_DEFLECTION && IsInt16(gyro.Get(axis))
    ensures 1 <= s.rateP.Get(axis) <= 255 && Gain(s.rateI.Get(axis)) && Gain(s.rateD.Get(axis))
    ensures IsInt16(s.lastGyro.Get(axis)) && Abs(s.errorGyroI.Get(axis)) <= GYRO_WINDUP
    ensures Abs(s.delta1.Get(axis)) <= 0xFFFF && Abs(s.delta2.Get(axis)) <= 0xFFFF
  {
    assert 1 <= s.rateP.Get(Roll) && 1 <= s.rateP.Get(Pitch) && 1 <= s.rateP.Get(Yaw);
  }

  /** The rate (GYRO) side and the derivative of one axis. */
  lemma AxisRateFits(s: Stabilizer, axis: Axis, rc: Triple, gyro: Triple, angle: Triple)
    requires GainsInRange(s) && InputsInRange(rc, gyro, angle) && MemoryInRange(s)
    ensures RatesDefined(s)
    ensures var t := AxisStep(s, axis, rc, gyro, angle);
      && Abs(rc.Get(axis) * 10 * 8) <= 40000 && Abs(t.error) <= 40000 + 0x8000
      && Abs(s.errorGyroI.Get(axis) + t.error) <= GYRO_WINDUP + 40000 + 0x8000
      && Abs(CDiv(t.errorGyroI, 125) * s.rateI.Get(axis)) <= 128 * 255
      && Abs(t.iTermGyro) <= 128 * 255
      && Abs(gyro.Get(axis) * s.rateP.Get(axis)) <= 0x8000 * 255
      && Abs(t.pBlend - t.pTerm) <= 0x8000 * 255
      && Abs(t.delta) <= 0xFFFF && Abs(t.deltaSum) <= 3 * 0xFFFF
      && Abs(t.deltaSum * s.rateD.Get(axis)) <= 3 * 0xFFFF * 255
      && Abs(t.dTerm) <= 3 * 0xFFFF * 255
  {
    AxisInputs(s, axis, rc, gyro, angle);
    var t := AxisStep(s, axis, rc, gyro, angle);
    var g := gyro.Get(axis);
    RateErrorFits(rc.Get(axis), g, s.rateP.Get(axis));
    GyroITermFits(t.errorGyroI, s.rateI.Get(axis));
    DampingFits(g, s.rateP.Get(axis));
    DerivativeFits(t.deltaSum, s.rateD.Get(axis));
  }

  /** The angle-levelling (ACC) side and the blend of a roll or pitch axis. */
  lemma AxisLevelFits(s: Stabilizer, axis: Axis, rc: Triple, gyro: Triple, angle: Triple)
    requires axis != Yaw
    requires GainsInRange(s) && InputsInRange(rc, gyro, angle) && MemoryInRange(s)
    ensures RatesDefined(s)
    ensures var t := AxisStep(s, axis, rc, gyro, angle);
      && Abs(2 * rc.Get(axis)) <= 1000 && Abs(t.level.errorAngle) <= 1000 + 0x8000
      && Abs(t.level.errorAngle * s.config.levelP) <= (1000 + 0x8000) * 255
      && Abs(s.errorAngleI.Get(axis) + t.level.errorAngle) <= ANGLE_WINDUP + 1000 + 0x8000
      && Abs(t.level.errorAngleI * s.config.levelI) <= ANGLE_WINDUP * 255
      && Abs(t.level.pTermAcc * (FULL_DEFLECTION - t.level.prop)) <= 86108 * FULL_DEFLECTION
      && Abs(t.pTermGyro * t.level.prop) <= FULL_DEFLECTION * FULL_DEFLECTION
      && Abs(t.level.iTermAcc * (FULL_DEFLECTION - t.level.prop)) <= ANGLE_WINDUP * 255 * FULL_DEFLECTION
      && Abs(t.iTermGyro * t.level.prop) <= 128 * 255 * FULL_DEFLECTION
      && Abs(t.pBlend) <= 86108 && Abs(t.iTerm) <= ANGLE_WINDUP * 255
  {
    AxisInputs(s, axis, rc, gyro, angle);
    AxisRateFits(s, axis, rc, gyro, angle);
    var t := AxisStep(s, axis, rc, gyro, angle);
    assert InputsInRange(rc, ZERO, angle);
    LevelingFits(s, axis, rc, angle);
    var l := t.level;
    BlendFits(l.pTermAcc, 86108, t.pTermGyro, FULL_DEFLECTION, l.prop);
    BlendFits(l.iTermAcc, ANGLE_WINDUP * 255, t.iTermGyro, 128 * 255, l.prop);
  }

  /** Every value the loop body of `Stabilize::update` computes for one
      axis, down to each product and sum, is an `int32_t`. */
  lemma AxisStepFitsInt32(s: Stabilizer, axis: Axis, rc: Triple, gyro: Triple, angle: Triple)
    requires GainsInRange(s) && InputsInRange(rc, gyro, angle) && MemoryInRange(s)
    ensures RatesDefined(s)
    ensures var t := AxisStep(s, axis, rc, gyro, angle);
      && IsInt32(rc.Get(axis) * 10 * 8) && IsInt32(t.error)
      && IsInt32(s.errorGyroI.Get(axis) + t.error)
      && IsInt32(CDiv(t.errorGyroI, 125) * s.rateI.Get(axis)) && IsInt32(t.iTermGyro)
      && IsInt32(gyro.Get(axis) * s.rateP.Get(axis)) && IsInt32(t.pTerm)
      && IsInt32(t.delta) && IsInt32(t.deltaSum) && IsInt32(t.deltaSum * s.rateD.Get(axis))
      && IsInt32(t.dTerm) && IsInt32(t.pTerm + t.iTerm) && IsInt32(t.pid)
    ensures var t := AxisStep(s, axis, rc, gyro, angle);
      axis != Yaw ==>
        && IsInt32(2 * rc.Get(axis)) && IsInt32(t.level.errorAngle)
        && IsInt32(t.level.errorAngle * s.config.levelP)
        && IsInt32(s.errorAngleI.Get(axis) + t.level.errorAngle)
        && IsInt32(t.level.errorAngleI * s.config.levelI)
        && IsInt32(t.level.pTermAcc * (FULL_DEFLECTION - t.level.prop))
        && IsInt32(t.pTermGyro * t.level.prop)
        && IsInt32(t.level.pTermAcc * (FULL_DEFLECTION - t.level.prop) + t.pTermGyro * t.level.prop)
        && IsInt32(t.level.iTermAcc * (FULL_DEFLECTION - t.level.prop))
        && IsInt32(t.iTermGyro * t.level.prop)
        && IsInt32(t.level.iTermAcc * (FULL_DEFLECTION - t.level.prop) + t.iTermGyro * t.level.prop)
  {
    AxisRateFits(s, axis, rc, gyro, angle);
    var t := AxisStep(s, axis, rc, gyro, angle);
    if axis != Yaw {
      AxisLevelFits(s, axis, rc, gyro, angle);
    } else {
      assert Abs(t.pBlend) <= FULL_DEFLECTION && Abs(t.iTerm) <= 128 * 255;
    }
    assert Abs(t.pTerm) <= 86108 + 0x8000 * 255;
    assert t.pid == t.pTerm + t.iTerm - t.dTerm;
  }

  /** The yaw clamp's bounds, `-100 - |rcCommand[yaw]|` and
      `100 + |rcCommand[yaw]|`, are `int32_t` too, so every axis's output
      is. */
  lemma UpdateOutputFitsInt32(s: Stabilizer, rc: Triple, gyro: Triple, angle: Triple)
    requires GainsInRange(s) && InputsInRange(rc, gyro, angle) && MemoryInRange(s)
    ensures RatesDefined(s)
    ensures forall axis :: IsInt32(Update(s, rc, gyro, angle).axisPID.Get(axis))
  {
    AxisStepFitsInt32(s, Roll, rc, gyro, angle);
    AxisStepFitsInt32(s, Pitch, rc, gyro, angle);
    AxisStepFitsInt32(s, Yaw, rc, gyro, angle);
  }
}
