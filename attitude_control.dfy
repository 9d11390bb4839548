/** One control tick of the attitude controller: the state that persists
    across ticks (controllers, cached limits, motor arrays, tick counter),
    the pure computation of a tick's motor values, and the tick itself. */
module AttitudeControl {
  import opened Thrust
  import opened Mixer
  import opened Actuator

  /** Capacity of the static motor arrays; the quadrotor uses four. */
  const MaxMotorCount: nat := 16
  const MotorCount: nat := 4
  /** Parameters are reloaded every 50 ticks, motors are sent every 5. */
  const ReloadPeriod: int := 50
  const SendPeriod: int := 5

  /** Gains handed to a PID controller: P, I, D and the anti-windup bound. */
  datatype Gains = Gains(p: real, i: real, d: real, awu: real)

  /** Read-only snapshot of the parameter store entries the tick uses. */
  datatype Params = Params(
    yawPos: Gains, yawSpeed: Gains, att: Gains,
    yawPosLim: real, yawSpeedLim: real, attLim: real)

  /** Parameters are reloaded when the counter is a multiple of 50. */
  predicate ReloadTick(counter: int) {
    counter % ReloadPeriod == 0
  }

  /** Motors are sent when the counter is a multiple of 5. */
  predicate SendTick(counter: int) {
    counter % SendPeriod == 0
  }

  /** Every parameter-reload tick is also a transmission tick. */
  lemma ReloadTickIsSendTick(counter: int)
    requires ReloadTick(counter)
    ensures SendTick(counter)
  {
    assert counter == 5 * (10 * (counter / ReloadPeriod));
  }

  /** Transmission happens once in every five consecutive ticks: a
      transmission tick is followed by four silent ones, and every window of
      five ticks holds one transmission tick. */
  lemma {:induction false} SendOncePerFiveTicks(counter: int)
    ensures SendTick(counter) ==> forall c :: counter < c < counter + SendPeriod ==> !SendTick(c)
    ensures exists c :: counter <= c < counter + SendPeriod && SendTick(c)
  {
    if SendTick(counter) {
      forall c | counter < c < counter + SendPeriod
        ensures !SendTick(c)
      {
        assert c % SendPeriod == c - counter;
      }
    }
    var c := counter + (SendPeriod - counter % SendPeriod) % SendPeriod;
    assert SendTick(c);
  }

  /** Everything a tick computes from its inputs and the cached limits. */
  datatype TickOutput = TickOutput(
    thrust: real,            // base thrust after gating, compensation and raising to the minimum
    band: real,              // output band around it
    controls: AxisControls,  // control outputs after limiting
    yawSat: bool, nickSat: bool, rollSat: bool,  // which limits fired
    motors: seq<real>,       // motor values after mixing and the band clamp
    pwm: seq<int>)           // values sent to the motors

  /** The three control outputs limited to the cached limits. */
  function LimitedControls(yawLim: real, attLim: real, pidOut: AxisControls): (c: AxisControls)
    ensures 0.0 <= attLim ==> -attLim <= c.nick <= attLim && -attLim <= c.roll <= attLim
    ensures 0.0 <= yawLim ==> -yawLim <= c.yawRate <= yawLim
    ensures 0.0 <= attLim && -attLim <= pidOut.nick <= attLim ==> c.nick == pidOut.nick
    ensures 0.0 <= attLim && -attLim <= pidOut.roll <= attLim ==> c.roll == pidOut.roll
    ensures 0.0 <= yawLim && -yawLim <= pidOut.yawRate <= yawLim ==> c.yawRate == pidOut.yawRate
    ensures attLim < 0.0 ==> c.nick == -attLim && c.roll == -attLim
    ensures yawLim < 0.0 ==> c.yawRate == -yawLim
  {
    AxisControls(ClampAxis(pidOut.nick, attLim).value, ClampAxis(pidOut.roll, attLim).value,
                 ClampAxis(pidOut.yawRate, yawLim).value)
  }

  /** The values sent for the four motors: the idle floor or 512 each. */
  function Pwms(m: seq<real>): (p: seq<int>)
    requires |m| == MotorCount
    ensures |p| == MotorCount
    ensures forall i :: 0 <= i < MotorCount ==> p[i] == (if m[i] >= 1.0 then PwmMax else IdleFloor)
  {
    PwmIsBinary(m[0]);
    PwmIsBinary(m[1]);
    PwmIsBinary(m[2]);
    PwmIsBinary(m[3]);
    [Pwm(m[0]), Pwm(m[1]), Pwm(m[2]), Pwm(m[3])]
  }

  /** The motor values of one tick from the base thrust (after mode gating
      and tilt compensation) and the outputs the PID controllers returned. */
  function Step(yawLim: real, attLim: real, baseThrust: real, pidOut: AxisControls): (out: TickOutput)
    ensures |out.motors| == MotorCount && |out.pwm| == MotorCount
    ensures forall i :: 0 <= i < MotorCount ==> IdleFloor <= out.pwm[i] <= PwmMax
  {
    var banded := Band(baseThrust);
    var controls := LimitedControls(yawLim, attLim, pidOut);
    var motors := ClampAll(MixWithRetry(banded.thrust, banded.band, controls), banded.thrust, banded.band);
    TickOutput(banded.thrust, banded.band, controls,
               ClampAxis(pidOut.yawRate, yawLim).fired, ClampAxis(pidOut.nick, attLim).fired,
               ClampAxis(pidOut.roll, attLim).fired,
               motors, Pwms(motors))
  }

  /** For non-negative limits the controls lie within them, are unchanged
      when already inside, and a saturation flag is raised exactly when its
      output was outside its limit. */
  lemma SaturationFlagsReportClamps(yawLim: real, attLim: real, t: real, pidOut: AxisControls)
    requires 0.0 <= yawLim && 0.0 <= attLim
    ensures var out := Step(yawLim, attLim, t, pidOut);
      && -yawLim <= out.controls.yawRate <= yawLim
      && -attLim <= out.controls.nick <= attLim
      && -attLim <= out.controls.roll <= attLim
      && (out.yawSat <==> pidOut.yawRate < -yawLim || yawLim < pidOut.yawRate)
      && (out.nickSat <==> pidOut.nick < -attLim || attLim < pidOut.nick)
      && (out.rollSat <==> pidOut.roll < -attLim || attLim < pidOut.roll)
      && (!out.yawSat ==> out.controls.yawRate == pidOut.yawRate)
      && (!out.nickSat ==> out.controls.nick == pidOut.nick)
      && (!out.rollSat ==> out.controls.roll == pidOut.roll)
  {
  }

  /** Every motor value a tick computes is non-negative, so the conversion
      to the unsigned actuator type never sees a negative value. */
  lemma MotorsNonNegative(yawLim: real, attLim: real, t: real, pidOut: AxisControls)
    ensures var out := Step(yawLim, attLim, t, pidOut);
      forall i :: 0 <= i < MotorCount ==> 0.0 <= out.motors[i]
  {
    if t <= MaxThrust {
      MotorsStayInBand(yawLim, attLim, t, pidOut);
    } else {
      OverFullThrustFlattensMotors(yawLim, attLim, t, pidOut);
    }
  }

  /** Up to full thrust, every motor ends inside the band around the base
      thrust, and the band keeps it within 0..1. */
  lemma MotorsStayInBand(yawLim: real, attLim: real, t: real, pidOut: AxisControls)
    requires t <= MaxThrust
    ensures var out := Step(yawLim, attLim, t, pidOut);
      && 0.0 <= out.band
      && forall i :: 0 <= i < MotorCount ==>
           0.0 <= out.thrust - out.band <= out.motors[i] <= out.thrust + out.band <= MaxThrust
  {
  }

  /** Beyond full thrust the band is negative and every motor ends at the
      same value, t + band, whatever the control outputs. */
  lemma OverFullThrustFlattensMotors(yawLim: real, attLim: real, t: real, pidOut: AxisControls)
    requires MaxThrust < t
    ensures var out := Step(yawLim, attLim, t, pidOut);
      && out.band < 0.0
      && forall i :: 0 <= i < MotorCount ==> out.motors[i] == out.thrust + out.band
  {
  }

  /** A base thrust at or below the minimum pins all four motors to exactly
      the minimum thrust, whatever the control outputs, and sends the idle
      floor to every motor. */
  lemma LowThrustPinsMotors(yawLim: real, attLim: real, t: real, pidOut: AxisControls)
    requires t <= MinThrust
    ensures var out := Step(yawLim, attLim, t, pidOut);
      && out.thrust == MinThrust && out.band == 0.0
      && out.motors == [MinThrust, MinThrust, MinThrust, MinThrust]
      && out.pwm == [IdleFloor, IdleFloor, IdleFloor, IdleFloor]
  {
    // with band 0 the clamp sends every motor to the raised base thrust
    assert Band(t) == Banded(MinThrust, 0.0);
    var motors := ClampAll(MixWithRetry(MinThrust, 0.0, LimitedControls(yawLim, attLim, pidOut)), MinThrust, 0.0);
    assert motors == [MinThrust, MinThrust, MinThrust, MinThrust];
    PwmIsBinary(MinThrust);
  }

  /** Emergency cut-off, or any state that is not a flying state, pins all
      four motors to the minimum thrust and sends the idle floor to each,
      whatever the setpoint, the attitude and the control outputs. */
  lemma CutoffIdlesMotors(yawLim: real, attLim: real, thrustSp: real, state: SystemState,
                          attRoll: real, attPitch: real, pidOut: AxisControls, cos: real -> real)
    requires Abs(attRoll) <= 1.0 ==> cos(attRoll) != 0.0
    requires Abs(attPitch) <= 1.0 ==> cos(attPitch) != 0.0
    requires !state.IsFlying()
    ensures var out := Step(yawLim, attLim, CompensatedThrust(state, thrustSp, attRoll, attPitch, cos), pidOut);
      && out.motors == [MinThrust, MinThrust, MinThrust, MinThrust]
      && out.pwm == [IdleFloor, IdleFloor, IdleFloor, IdleFloor]
  {
    var t := CompensatedThrust(state, thrustSp, attRoll, attPitch, cos);
    assert t == 0.0;
    LowThrustPinsMotors(yawLim, attLim, t, pidOut);
  }

  /** With no control output and non-negative limits, every motor equals
      the base thrust as long as it does not exceed full thrust. */
  lemma ZeroControlsGiveUniformMotors(yawLim: real, attLim: real, t: real)
    requires 0.0 <= yawLim && 0.0 <= attLim
    requires t <= MaxThrust
    ensures var out := Step(yawLim, attLim, t, AxisControls(0.0, 0.0, 0.0));
      out.motors == [out.thrust, out.thrust, out.thrust, out.thrust]
  {
    var banded := Band(t);
    UniformMotorsWithoutControls(banded.thrust, banded.band);
  }

  /** As written, the values sent ignore the control outputs altogether:
      all four motors get the idle floor while the base thrust is below full
      thrust, and all four get 512 from full thrust on. */
  lemma PwmIgnoresControls(yawLim: real, attLim: real, t: real, pidOut: AxisControls)
    ensures var out := Step(yawLim, attLim, t, pidOut);
      out.pwm == if t < MaxThrust then [IdleFloor, IdleFloor, IdleFloor, IdleFloor]
                 else [PwmMax, PwmMax, PwmMax, PwmMax]
  {
    var out := Step(yawLim, attLim, t, pidOut);
    var banded := Band(t);
    if t < MaxThrust {
      assert banded.thrust + banded.band < MaxThrust;
      forall i | 0 <= i < MotorCount
        ensures out.motors[i] < 1.0
      {
      }
    } else {
      assert banded.thrust + banded.band >= MaxThrust;
      forall i | 0 <= i < MotorCount
        ensures out.motors[i] >= 1.0
      {
      }
    }
  }

  /** Half thrust without control output: all motors hold exactly half
      thrust, and yet the idle floor is what is sent to each. */
  lemma HoverSendsIdleFloor(yawLim: real, attLim: real)
    requires 0.0 <= yawLim && 0.0 <= attLim
    ensures var out := Step(yawLim, attLim, 0.5, AxisControls(0.0, 0.0, 0.0));
      && out.motors == [0.5, 0.5, 0.5, 0.5]
      && out.pwm == [IdleFloor, IdleFloor, IdleFloor, IdleFloor]
  {
    ZeroControlsGiveUniformMotors(yawLim, attLim, 0.5);
    PwmIgnoresControls(yawLim, attLim, 0.5, AxisControls(0.0, 0.0, 0.0));
  }

  /** A PID controller: its internal state belongs to the PID library; the
      model keeps the gains last handed to it and its saturation flag. */
  class Pid {
    var gains: Gains
    var saturated: bool

    /** Static storage starts zeroed. */
    constructor ()
      ensures gains == Gains(0.0, 0.0, 0.0, 0.0) && !saturated
    {
      gains := Gains(0.0, 0.0, 0.0, 0.0);
      saturated := false;
    }
  }

  /** Which of the tick's bookkeeping actions ran. */
  datatype TickEvents = TickEvents(initRan: bool, reloaded: bool, sent: bool)

  /** The state the control function keeps in static storage between ticks. */
  class AttitudeController {
    var skipCounter: int
    var initialized: bool
    const yawPos: Pid
    const yawSpeed: Pid
    const nick: Pid
    const roll: Pid
    var yawPosLim: real
    var yawSpeedLim: real
    var attLim: real
    const motorPwm: array<int>
    const motorCalc: array<real>

    /** The motor arrays have their static size and the four controllers
      are four separate objects. */
    predicate WellFormed() {
      && motorPwm.Length == MaxMotorCount && motorCalc.Length == MaxMotorCount
      && yawPos != yawSpeed && yawPos != nick && yawPos != roll
      && yawSpeed != nick && yawSpeed != roll && nick != roll
    }

    ghost predicate Valid()
      reads this, motorPwm
    {
      && WellFormed()
      && 0 <= skipCounter
      && (initialized <==> 0 < skipCounter)
      && (initialized ==> forall i :: 0 <= i < MotorCount ==> IdleFloor <= motorPwm[i] <= PwmMax)
    }

    /** The zero-initialised static state before the first tick. */
    constructor ()
      ensures Valid()
      ensures skipCounter == 0 && !initialized
      ensures fresh(yawPos) && fresh(yawSpeed) && fresh(nick) && fresh(roll)
      ensures fresh(motorPwm) && fresh(motorCalc)
      ensures yawSpeedLim == 0.0 && attLim == 0.0 && yawPosLim == 0.0
      ensures forall i :: 0 <= i < MaxMotorCount ==> motorPwm[i] == 0 && motorCalc[i] == 0.0
    {
      skipCounter := 0;
      initialized := false;
      yawPos := new Pid();
      yawSpeed := new Pid();
      nick := new Pid();
      roll := new Pid();
      yawPosLim, yawSpeedLim, attLim := 0.0, 0.0, 0.0;
      motorPwm := new int[MaxMotorCount](_ => 0);
      motorCalc := new real[MaxMotorCount](_ => 0.0);
    }

    /** Hands the parameter snapshot to the four controllers and caches the
      three output limits; the two attitude controllers share one set. */
    method LoadParameters(p: Params)
      requires WellFormed()
      modifies yawPos`gains, yawSpeed`gains, nick`gains, roll`gains
      modifies this`yawPosLim, this`yawSpeedLim, this`attLim
      ensures yawPos.gains == p.yawPos && yawSpeed.gains == p.yawSpeed
      ensures nick.gains == p.att && roll.gains == p.att
      ensures yawPosLim == p.yawPosLim && yawSpeedLim == p.yawSpeedLim && attLim == p.attLim
    {
      yawPos.gains := p.yawPos;
      yawSpeed.gains := p.yawSpeed;
      nick.gains := p.att;
      roll.gains := p.att;
      yawPosLim := p.yawPosLim;
      yawSpeedLim := p.yawSpeedLim;
      attLim := p.attLim;
    }

    /** The first-call initialisation and the periodic parameter reload. */
    method Refresh(p: Params) returns (ev: TickEvents)
      requires Valid()
      modifies this`initialized, this`yawPosLim, this`yawSpeedLim, this`attLim
      modifies yawPos`gains, yawSpeed`gains, nick`gains, roll`gains
      ensures initialized
      ensures ev == TickEvents(!old(initialized), ReloadTick(skipCounter), SendTick(skipCounter))
      ensures ev.initRan || ev.reloaded ==>
        && yawPos.gains == p.yawPos && yawSpeed.gains == p.yawSpeed
        && nick.gains == p.att && roll.gains == p.att
        && yawPosLim == p.yawPosLim && yawSpeedLim == p.yawSpeedLim && attLim == p.attLim
      ensures !(ev.initRan || ev.reloaded) ==>
        && yawPos.gains == old(yawPos.gains) && yawSpeed.gains == old(yawSpeed.gains)
        && nick.gains == old(nick.gains) && roll.gains == old(roll.gains)
        && yawPosLim == old(yawPosLim) && yawSpeedLim == old(yawSpeedLim) && attLim == old(attLim)
    {
      ev := TickEvents(!initialized, ReloadTick(skipCounter), SendTick(skipCounter));
      // initialise the controllers on the first call
      if !initialized {
        LoadParameters(p);
        initialized := true;
      }
      // load new parameters at a lower rate
      if skipCounter % ReloadPeriod == 0 {
        LoadParameters(p);
      }
    }

    /** Limits the three control outputs to the cached limits, raising the
      saturation flag of each controller whose output was limited. */
    method LimitControls(pidOut: AxisControls) returns (controls: AxisControls)
      requires WellFormed()
      modifies yawSpeed`saturated, nick`saturated, roll`saturated
      ensures controls == LimitedControls(yawSpeedLim, attLim, pidOut)
      ensures yawSpeed.saturated == (old(yawSpeed.saturated) || ClampAxis(pidOut.yawRate, yawSpeedLim).fired)
      ensures nick.saturated == (old(nick.saturated) || ClampAxis(pidOut.nick, attLim).fired)
      ensures roll.saturated == (old(roll.saturated) || ClampAxis(pidOut.roll, attLim).fired)
    {
      var yawC := ClampAxis(pidOut.yawRate, yawSpeedLim);
      if yawC.fired {
        yawSpeed.saturated := true;
      }
      var nickC := ClampAxis(pidOut.nick, attLim);
      if nickC.fired {
        nick.saturated := true;
      }
      var rollC := ClampAxis(pidOut.roll, attLim);
      if rollC.fired {
        roll.saturated := true;
      }
      controls := AxisControls(nickC.value, rollC.value, yawC.value);
    }

    /** Writes the first mix into the motor array and, when it is not strictly
      inside the band, overwrites all four motors with the halved-yaw mix. */
    method MixMotors(t: real, band: real, controls: AxisControls)
      requires WellFormed()
      modifies motorCalc
      ensures motorCalc[..MotorCount] == MixWithRetry(t, band, controls)
      ensures motorCalc[MotorCount..] == old(motorCalc[MotorCount..])
    {
      var first := Mix(t, controls, 1.0);
      motorCalc[0], motorCalc[1], motorCalc[2], motorCalc[3] := first[0], first[1], first[2], first[3];
      assert motorCalc[..MotorCount] == first;
      // not in the output band: mix again with the yaw output halved
      if !StrictlyInside(motorCalc[..MotorCount], t, band) {
        var second := Mix(t, controls, 0.5);
        motorCalc[0], motorCalc[1], motorCalc[2], motorCalc[3] := second[0], second[1], second[2], second[3];
        assert motorCalc[..MotorCount] == second;
      }
    }

    /** Converts the four motor values into the values sent to the motors. */
    method ScaleMotors()
      requires WellFormed()
      modifies motorPwm
      ensures motorPwm[..MotorCount] == Pwms(motorCalc[..MotorCount])
      ensures motorPwm[MotorCount..] == old(motorPwm[MotorCount..])
      ensures forall i :: 0 <= i < MotorCount ==> IdleFloor <= motorPwm[i] <= PwmMax
    {
      motorPwm[0] := Pwm(motorCalc[0]);
      motorPwm[1] := Pwm(motorCalc[1]);
      motorPwm[2] := Pwm(motorCalc[2]);
      motorPwm[3] := Pwm(motorCalc[3]);
      assert motorPwm[..MotorCount] == Pwms(motorCalc[..MotorCount]);
    }

    /** Thrust selected by the vehicle state, compensated for the tilt. */
    static method BaseThrust(state: SystemState, thrustSp: real, attRoll: real, attPitch: real, cos: real -> real)
      returns (motorThrust: real)
      requires Abs(attRoll) <= 1.0 ==> cos(attRoll) != 0.0
      requires Abs(attPitch) <= 1.0 ==> cos(attPitch) != 0.0
      ensures motorThrust == CompensatedThrust(state, thrustSp, attRoll, attPitch, cos)
    {
      motorThrust := ModeThrust(state, thrustSp);
      // compensate the thrust vector for the roll and pitch contributions
      motorThrust := motorThrust * TiltFactor(attRoll, attPitch, cos);
    }

    /** Limiting, band, mixing with retry, band clamp and scaling for one
      tick, from the base thrust and the control outputs. */
    method Control(motorThrust: real, pidOut: AxisControls)
      requires WellFormed()
      modifies motorCalc, motorPwm, yawSpeed`saturated, nick`saturated, roll`saturated
      ensures var out := Step(yawSpeedLim, attLim, motorThrust, pidOut);
        && motorCalc[..MotorCount] == out.motors
        && motorPwm[..MotorCount] == out.pwm
        && yawSpeed.saturated == (old(yawSpeed.saturated) || out.yawSat)
        && nick.saturated == (old(nick.saturated) || out.nickSat)
        && roll.saturated == (old(roll.saturated) || out.rollSat)
      ensures motorCalc[MotorCount..] == old(motorCalc[MotorCount..])
      ensures motorPwm[MotorCount..] == old(motorPwm[MotorCount..])
      ensures forall i :: 0 <= i < MotorCount ==> IdleFloor <= motorPwm[i] <= PwmMax
    {
      var controls := LimitControls(pidOut);
      var banded := Band(motorThrust);
      MixMotors(banded.thrust, banded.band, controls);
      ClampToBand(motorCalc, banded.thrust, banded.band);
      ScaleMotors();
    }

    /** One control tick. `pidOut` holds what the nick, roll and yaw-speed
      controllers returned this tick; `cos` is the cosine. */
    method Tick(p: Params, thrustSp: real, state: SystemState, attRoll: real, attPitch: real,
                pidOut: AxisControls, cos: real -> real) returns (ev: TickEvents)
      requires Valid()
      requires Abs(attRoll) <= 1.0 ==> cos(attRoll) != 0.0
      requires Abs(attPitch) <= 1.0 ==> cos(attPitch) != 0.0
      modifies this, motorCalc, motorPwm, yawPos, yawSpeed, nick, roll
      ensures Valid()
      ensures skipCounter == old(skipCounter) + 1 && initialized
      ensures ev == TickEvents(old(skipCounter) == 0, ReloadTick(old(skipCounter)), SendTick(old(skipCounter)))
      ensures ev.initRan || ev.reloaded ==>
        && yawPos.gains == p.yawPos && yawSpeed.gains == p.yawSpeed
        && nick.gains == p.att && roll.gains == p.att
        && yawPosLim == p.yawPosLim && yawSpeedLim == p.yawSpeedLim && attLim == p.attLim
      ensures !(ev.initRan || ev.reloaded) ==>
        && yawPos.gains == old(yawPos.gains) && yawSpeed.gains == old(yawSpeed.gains)
        && nick.gains == old(nick.gains) && roll.gains == old(roll.gains)
        && yawPosLim == old(yawPosLim) && yawSpeedLim == old(yawSpeedLim) && attLim == old(attLim)
      ensures var out := Step(yawSpeedLim, attLim, CompensatedThrust(state, thrustSp, attRoll, attPitch, cos), pidOut);
        && motorCalc[..MotorCount] == out.motors
        && motorPwm[..MotorCount] == out.pwm
        && yawSpeed.saturated == (old(yawSpeed.saturated) || out.yawSat)
        && nick.saturated == (old(nick.saturated) || out.nickSat)
        && roll.saturated == (old(roll.saturated) || out.rollSat)
      ensures yawPos.saturated == old(yawPos.saturated)
      ensures motorCalc[MotorCount..] == old(motorCalc[MotorCount..])
      ensures motorPwm[MotorCount..] == old(motorPwm[MotorCount..])
    {
      ev := Refresh(p);

      var motorThrust := BaseThrust(state, thrustSp, attRoll, attPitch, cos);
      Control(motorThrust, pidOut);

      skipCounter := skipCounter + 1;
    }
  }
}
