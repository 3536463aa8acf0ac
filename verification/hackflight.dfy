/**
 The arming and calibration state machine of firmware/hackflight.cpp, and
 one pass of `Hackflight::update` composed with the stabiliser.

 Each pass is either an RC tick (the receiver task is due or serial RC data
 is ready) or a non-RC tick that runs one of the board's extra tasks in
 round-robin order; after either, an IMU tick follows when the IMU task is
 due. Timer tasks, receiver decoding and sensor reads are outside the
 model: their results arrive as the fields of `LoopInput`.
 */
module Hackflight {
  import opened FixedPoint
  import Stabilize

  /** Where one stick sits: low, centred or high. */
  datatype Position = Lo | Ce | Hi

  /** The receiver's stick classification `rc.sticks`, one position per
      channel. The model treats distinct gestures as distinct values: two
      gestures match only when all four positions agree. */
  datatype Sticks = Sticks(throttle: Position, yaw: Position, pitch: Position, roll: Position)

  /** THR_LO + YAW_LO + PIT_CE + ROL_CE */
  const DISARM := Sticks(Lo, Lo, Ce, Ce)
  /** THR_LO + YAW_LO + PIT_LO + ROL_CE */
  const CALIBRATE_GYRO := Sticks(Lo, Lo, Lo, Ce)
  /** THR_LO + YAW_HI + PIT_CE + ROL_CE */
  const ARM := Sticks(Lo, Hi, Ce, Ce)
  /** THR_HI + YAW_LO + PIT_LO + ROL_CE */
  const CALIBRATE_ACC := Sticks(Hi, Lo, Lo, Ce)

  /** Board-derived constants: the calibration lengths `initialize`
      computes from the board's loop time, and `CONFIG_SMALL_ANGLE`. */
  datatype Params = Params(calibratingGyroCycles: nat, calibratingAccCycles: nat, smallAngle: int)

  /** The state machine's memory. `accCalibrated`, `calibratingA`, `on` and
      `taskOrder` are function-static locals in the firmware; here they are
      fields. */
  datatype FlightState = FlightState(
    armed: bool,
    calibratingG: nat,
    calibratingA: nat,
    accCalibrated: bool,
    haveSmallAngle: bool,
    on: bool,
    taskOrder: int)

  /** What the receiver reports on an RC tick. */
  datatype RcInput = RcInput(sticks: Sticks, changed: bool, throttleIsDown: bool, auxState: bool)

  /** The new state, and whether `stab.resetIntegral()` was called. */
  datatype RcOutcome = RcOutcome(state: FlightState, resetIntegral: bool)

  /** The new state, and the index handed to `extrasPerformTask`. */
  datatype TaskOutcome = TaskOutcome(state: FlightState, task: int)

  /** The whole controller: flight state and the `Stabilize` object. */
  datatype Copter = Copter(flight: FlightState, stab: Stabilize.Stabilizer)

  /** Everything one pass of `Hackflight::update` consumes. `rcDue` stands
      for `rcTask.checkAndUpdate(currentTime) || rcSerialReady`, `imuDue`
      for `imuTask.checkAndUpdate(currentTime)`, `accelDue` for
      `accelCalibrationTask.check(currentTime)`; `taskCount` is the board's
      extra-task count; `rcCommand`, `gyro` and `angle` are the receiver's
      commands after expo, the gyro rates and the IMU's angles. */
  datatype LoopInput = LoopInput(
    rcDue: bool, rc: RcInput, taskCount: int,
    imuDue: bool, accelDue: bool,
    rcCommand: Stabilize.Triple, gyro: Stabilize.Triple, angle: Stabilize.Triple)

  /** The arm gesture on a changed stick reading, with every guard met. */
  predicate ArmAllowed(s: FlightState, rx: RcInput) {
    rx.changed && rx.sticks == ARM && s.calibratingG == 0 && s.accCalibrated && !rx.auxState
  }

  predicate Disarms(rx: RcInput) {
    rx.changed && rx.sticks == DISARM
  }

  predicate SmallAngle(p: Params, angle: Stabilize.Triple) {
    Abs(angle.roll) < p.smallAngle && Abs(angle.pitch) < p.smallAngle
  }

  /** `Hackflight::initialize`: disarmed, gyro calibration pending, small
      angle assumed; the static locals start at zero/false. */
  function Initialize(p: Params, c: Stabilize.Config): (h: Copter)
    ensures !h.flight.armed
    ensures h.flight.calibratingG == p.calibratingGyroCycles
    ensures h.flight.haveSmallAngle
    ensures h.flight.calibratingA == 0 && !h.flight.accCalibrated
    ensures !h.flight.on && h.flight.taskOrder == 0
    ensures h.stab == Stabilize.Init(c)
  {
    Copter(FlightState(false, p.calibratingGyroCycles, 0, false, true, false, 0), Stabilize.Init(c))
  }

  /** The RC-tick branch of `Hackflight::update`. When armed, only the
      disarm gesture does anything; when disarmed, the gyro-calibration,
      arm and accel-calibration gestures are tried in that order. The
      integral reset depends on the throttle alone. */
  function RcTick(p: Params, s: FlightState, rx: RcInput): (o: RcOutcome)
    ensures o.resetIntegral == rx.throttleIsDown
    ensures !s.armed ==> (o.state.armed <==> ArmAllowed(s, rx))
    ensures s.armed ==> (!o.state.armed <==> Disarms(rx))
    ensures !rx.changed ==> o.state == s
    ensures o.state.calibratingG
      == if !s.armed && rx.changed && rx.sticks == CALIBRATE_GYRO then p.calibratingGyroCycles else s.calibratingG
    ensures o.state.calibratingA
      == if !s.armed && rx.changed && rx.sticks == CALIBRATE_ACC then p.calibratingAccCycles else s.calibratingA
    ensures o.state.accCalibrated == s.accCalibrated && o.state.haveSmallAngle == s.haveSmallAngle
    ensures o.state.on == s.on && o.state.taskOrder == s.taskOrder
  {
    var next :=
      if !rx.changed then
        s
      else if s.armed then
        if rx.sticks == DISARM then s.(armed := false) else s
      else
        var g := if rx.sticks == CALIBRATE_GYRO then p.calibratingGyroCycles else s.calibratingG;
        var armed := if rx.sticks == ARM && g == 0 && s.accCalibrated && !rx.auxState && !s.armed
                     then true else s.armed;
        var a := if rx.sticks == CALIBRATE_ACC then p.calibratingAccCycles else s.calibratingA;
        s.(calibratingG := g, armed := armed, calibratingA := a);
    RcOutcome(next, rx.throttleIsDown)
  }

  /** The non-RC branch: run extra task `taskOrder`, then advance it,
      wrapping to zero once it reaches the task count. */
  function TaskTick(s: FlightState, taskCount: int): (o: TaskOutcome)
    ensures o.task == s.taskOrder
    ensures 0 <= s.taskOrder ==> 0 <= o.state.taskOrder
    ensures 0 <= s.taskOrder && 0 < taskCount ==> o.state.taskOrder < taskCount
    ensures o.state == s.(taskOrder := o.state.taskOrder)
  {
    var next := s.taskOrder + 1;
    TaskOutcome(s.(taskOrder := if next >= taskCount then 0 else next), s.taskOrder)
  }

  /** The state-machine part of an IMU tick: both calibration counters
      count down to zero, the small-angle flag is recomputed, and when the
      accel-calibration task is due the calibration flag follows it, with
      the blink toggle flipping while the craft is tilted. */
  function ImuTick(p: Params, s: FlightState, angle: Stabilize.Triple, accelDue: bool): (r: FlightState)
    ensures r.calibratingA + 1 == s.calibratingA || r.calibratingA == s.calibratingA == 0
    ensures r.calibratingG + 1 == s.calibratingG || r.calibratingG == s.calibratingG == 0
    ensures r.haveSmallAngle <==> SmallAngle(p, angle)
    ensures accelDue ==> r.accCalibrated == r.haveSmallAngle
    ensures !accelDue ==> r.accCalibrated == s.accCalibrated
    ensures r.on != s.on <==> accelDue && !r.haveSmallAngle
    ensures r.armed == s.armed && r.taskOrder == s.taskOrder
  {
    var a := if s.calibratingA > 0 then s.calibratingA - 1 else s.calibratingA;
    var g := if s.calibratingG > 0 then s.calibratingG - 1 else s.calibratingG;
    var small := SmallAngle(p, angle);
    var t := s.(calibratingA := a, calibratingG := g, haveSmallAngle := small);
    if accelDue then
      if !small then t.(accCalibrated := false, on := !t.on) else t.(accCalibrated := true)
    else
      t
  }

  /** One pass of `Hackflight::update`. */
  function Loop(p: Params, h: Copter, rx: LoopInput): (r: Copter)
    requires Stabilize.RatesDefined(h.stab)
    ensures Stabilize.SameGains(r.stab, h.stab)
    ensures !h.flight.armed ==> (r.flight.armed <==> rx.rcDue && ArmAllowed(h.flight, rx.rc))
    ensures h.flight.armed ==> (!r.flight.armed <==> rx.rcDue && Disarms(rx.rc))
    ensures Stabilize.IntegralsBounded(h.stab) ==> Stabilize.IntegralsBounded(r.stab)
    ensures rx.rcDue && rx.rc.throttleIsDown && !rx.imuDue ==>
      r.stab.errorGyroI == Stabilize.ZERO && r.stab.errorAngleI == Stabilize.Pair(0, 0)
  {
    var (flight, stab) :=
      if rx.rcDue then
        var o := RcTick(p, h.flight, rx.rc);
        (o.state, if o.resetIntegral then Stabilize.ResetIntegral(h.stab) else h.stab)
      else
        (TaskTick(h.flight, rx.taskCount).state, h.stab);
    if rx.imuDue then
      Copter(ImuTick(p, flight, rx.angle, rx.accelDue), Stabilize.Update(stab, rx.rcCommand, rx.gyro, rx.angle))
    else
      Copter(flight, stab)
  }

  /** Successive passes of `Hackflight::update`. */
  function Run(p: Params, h: Copter, trace: seq<LoopInput>): (r: Copter)
    requires Stabilize.RatesDefined(h.stab)
    ensures Stabilize.SameGains(r.stab, h.stab)
    decreases |trace|
  {
    if |trace| == 0 then h else Run(p, Loop(p, h, trace[0]), trace[1..])
  }

  /** Number of passes in a trace in which the IMU task was due. */
  function ImuTickCount(trace: seq<LoopInput>): (n: nat)
    ensures n <= |trace|
  {
    if |trace| == 0 then 0 else (if trace[0].imuDue then 1 else 0) + ImuTickCount(trace[1..])
  }

  /** Once armed, the craft stays armed through any run in which no RC
      tick carries the disarm gesture: no timeout, calibration or IMU event
      disarms it. */
  lemma {:induction false} ArmedPersists(p: Params, h: Copter, trace: seq<LoopInput>)
    requires Stabilize.RatesDefined(h.stab)
    requires h.flight.armed
    requires forall i :: 0 <= i < |trace| ==> !(trace[i].rcDue && Disarms(trace[i].rc))
    ensures Run(p, h, trace).flight.armed
    decreases |trace|
  {
    if |trace| > 0 {
      assert !(trace[0].rcDue && Disarms(trace[0].rc));
      var h' := Loop(p, h, trace[0]);
      forall i | 0 <= i < |trace[1..]|
        ensures !(trace[1..][i].rcDue && Disarms(trace[1..][i].rc))
      {
        assert trace[1..][i] == trace[i + 1];
      }
      ArmedPersists(p, h', trace[1..]);
    }
  }

  /** A run that starts disarmed and ends armed contains an RC tick that
      carried the arm gesture while every arming guard held in the state
      reached just before it. */
  lemma {:induction false} ArmingNeedsGesture(p: Params, h: Copter, trace: seq<LoopInput>) returns (i: nat)
    requires Stabilize.RatesDefined(h.stab)
    requires !h.flight.armed && Run(p, h, trace).flight.armed
    ensures i < |trace|
    ensures trace[i].rcDue && ArmAllowed(Run(p, h, trace[..i]).flight, trace[i].rc)
    ensures !Run(p, h, trace[..i]).flight.armed && Run(p, h, trace[..i + 1]).flight.armed
    decreases |trace|
  {
    assert |trace| > 0;
    var h' := Loop(p, h, trace[0]);
    if h'.flight.armed {
      assert trace[..0] == [];
      assert trace[..1][1..] == [];
      i := 0;
    } else {
      var j := ArmingNeedsGesture(p, h', trace[1..]);
      i := j + 1;
      assert trace[..i][1..] == trace[1..][..j];
      assert trace[..i][0] == trace[0];
      assert trace[..i + 1][1..] == trace[1..][..j + 1];
      assert trace[..i + 1][0] == trace[0];
    }
  }

  /** One pass never pushes the gyro countdown above its full length, and
      lowers it by at most one, and only on an IMU tick. */
  lemma LoopGyroCountdown(p: Params, h: Copter, rx: LoopInput)
    requires Stabilize.RatesDefined(h.stab)
    requires h.flight.calibratingG <= p.calibratingGyroCycles
    ensures Loop(p, h, rx).flight.calibratingG <= p.calibratingGyroCycles
    ensures Loop(p, h, rx).flight.calibratingG + (if rx.imuDue then 1 else 0) >= h.flight.calibratingG
  {
  }

  lemma {:induction false} GyroCountdownLowerBound(p: Params, h: Copter, trace: seq<LoopInput>)
    requires Stabilize.RatesDefined(h.stab)
    requires h.flight.calibratingG <= p.calibratingGyroCycles
    ensures Run(p, h, trace).flight.calibratingG <= p.calibratingGyroCycles
    ensures Run(p, h, trace).flight.calibratingG + ImuTickCount(trace) >= h.flight.calibratingG
    decreases |trace|
  {
    if |trace| > 0 {
      LoopGyroCountdown(p, h, trace[0]);
      GyroCountdownLowerBound(p, Loop(p, h, trace[0]), trace[1..]);
    }
  }

  lemma {:induction false} ImuTickCountPrefix(trace: seq<LoopInput>, k: nat)
    requires k <= |trace|
    ensures ImuTickCount(trace[..k]) <= ImuTickCount(trace)
    decreases k
  {
    if k > 0 {
      assert trace[..k][1..] == trace[1..][..k - 1];
      ImuTickCountPrefix(trace[1..], k - 1);
    }
  }

  /** After `initialize`, the craft cannot arm before the gyro has been
      calibrated for the full number of IMU ticks. */
  lemma NoArmingDuringGyroCalibration(p: Params, c: Stabilize.Config, trace: seq<LoopInput>)
    requires c.pitchRollP != 0 && c.yawP != 0
    ensures Run(p, Initialize(p, c), trace).flight.armed ==> ImuTickCount(trace) >= p.calibratingGyroCycles
  {
    var h := Initialize(p, c);
    if Run(p, h, trace).flight.armed {
      var i := ArmingNeedsGesture(p, h, trace);
      GyroCountdownLowerBound(p, h, trace[..i]);
      ImuTickCountPrefix(trace, i);
    }
  }

  /** The windup bounds hold after any run that starts within them. */
  lemma {:induction false} IntegralsStayBounded(p: Params, h: Copter, trace: seq<LoopInput>)
    requires Stabilize.RatesDefined(h.stab)
    requires Stabilize.IntegralsBounded(h.stab)
    ensures Stabilize.IntegralsBounded(Run(p, h, trace).stab)
    decreases |trace|
  {
    if |trace| > 0 {
      IntegralsStayBounded(p, Loop(p, h, trace[0]), trace[1..]);
    }
  }

  /** On a pass where the throttle is down and the IMU task is also due,
      the stabiliser update follows the integral reset, so the integrals
      end the pass holding that tick's single-sample errors rather than
      zero. */
  lemma GroundIdleThenUpdate(p: Params, h: Copter, rx: LoopInput)
    requires Stabilize.RatesDefined(h.stab)
    requires rx.rcDue && rx.rc.throttleIsDown && rx.imuDue
    ensures Loop(p, h, rx).stab == Stabilize.Update(Stabilize.ResetIntegral(h.stab), rx.rcCommand, rx.gyro, rx.angle)
    ensures forall axis :: (Loop(p, h, rx).stab.errorGyroI.Get(axis)
      == Stabilize.GyroIntegral(axis, 0,
           Stabilize.RateError(rx.rcCommand.Get(axis), rx.gyro.Get(axis), h.stab.rateP.Get(axis)),
           rx.rcCommand, rx.gyro))
  {
    Stabilize.ResetForgetsHistory(h.stab, rx.rcCommand, rx.gyro, rx.angle);
  }

  /** `n` successive non-RC ticks with the same task count. */
  function Tasks(s: FlightState, taskCount: int, n: nat): FlightState
  {
    if n == 0 then s else TaskTick(Tasks(s, taskCount, n - 1), taskCount).state
  }

  /** With a fixed, positive task count the extra tasks run in cyclic
      order: after `n` non-RC ticks the next task is `n` places further
      on, modulo the count. */
  lemma {:induction false} RoundRobin(s: FlightState, taskCount: int, n: nat)
    requires 0 < taskCount && 0 <= s.taskOrder < taskCount
    ensures Tasks(s, taskCount, n).taskOrder == (s.taskOrder + n) % taskCount
  {
    if n == 0 {
      DivModUnique(s.taskOrder, taskCount, 0, s.taskOrder);
    } else {
      RoundRobin(s, taskCount, n - 1);
      ModSuccessor(s.taskOrder + n - 1, taskCount);
    }
  }

  /** One IMU sample as the state machine sees it. */
  datatype ImuSample = ImuSample(angle: Stabilize.Triple, accelDue: bool)

  /** Successive IMU ticks. */
  function ImuTicks(p: Params, s: FlightState, samples: seq<ImuSample>): FlightState
    decreases |samples|
  {
    if |samples| == 0 then s else ImuTicks(p, ImuTick(p, s, samples[0].angle, samples[0].accelDue), samples[1..])
  }

  /** The calibration countdowns fall by one per IMU tick until they reach
      zero, and stay there. */
  lemma {:induction false} CalibrationCountdown(p: Params, s: FlightState, samples: seq<ImuSample>)
    ensures ImuTicks(p, s, samples).calibratingG == Max(0, s.calibratingG - |samples|)
    ensures ImuTicks(p, s, samples).calibratingA == Max(0, s.calibratingA - |samples|)
    decreases |samples|
  {
    if |samples| > 0 {
      CalibrationCountdown(p, ImuTick(p, s, samples[0].angle, samples[0].accelDue), samples[1..]);
    }
  }
}
