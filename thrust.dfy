/** Base thrust of one control tick: selection by the vehicle state,
    compensation for the tilt of the thrust vector, and the thrust-dependent
    output band that bounds how far a motor may deviate from the base thrust. */
module Thrust {

  /** 2% minimum thrust. */
  const MinThrust: real := 0.02
  /** 100% maximum thrust. */
  const MaxThrust: real := 1.0
  const BandFactor: real := 0.75
  /** Full control authority starts at 25% thrust. */
  const StartpointFullControl: real := 0.25
  /** Per-axis tilt factor used beyond one radian (about 1/cos(1 rad)). */
  const TiltCap: real := 1.85081571768

  /** The state machine of the vehicle status. `Other` stands for every
      remaining value of the enumeration, known or not. */
  datatype SystemState =
    | Manual
    | GroundReady
    | Stabilized
    | Auto
    | MissionAbort
    | EmcyLanding
    | EmcyCutoff
    | Other(code: int)
  {
    /** The six states in which the setpoint thrust is honoured. */
    predicate IsFlying() {
      Manual? || GroundReady? || Stabilized? || Auto? || MissionAbort? || EmcyLanding?
    }
  }

  function Abs(x: real): (r: real)
    ensures 0.0 <= r && (r == x || r == -x)
  {
    if x < 0.0 then -x else x
  }

  /** Thrust selected by the vehicle state: the setpoint in a flying state,
      zero on emergency cut-off and on any other state (fail closed). */
  function ModeThrust(state: SystemState, thrust: real): (r: real)
    ensures state.IsFlying() ==> r == thrust
    ensures !state.IsFlying() ==> r == 0.0
  {
    if state == Manual || state == GroundReady || state == Stabilized
       || state == Auto || state == MissionAbort || state == EmcyLanding then
      thrust
    else if state == EmcyCutoff then
      0.0  // immediately cut off the motors
    else
      0.0  // unknown state: no throttle
  }

  /** The tilt factor of one axis. `cos` is the cosine the firmware calls;
      only where the factor divides by it does it need to be non-zero. */
  function AxisFactor(angle: real, cos: real -> real): (f: real)
    requires Abs(angle) <= 1.0 ==> cos(angle) != 0.0
    ensures Abs(angle) > 1.0 ==> f == TiltCap
    ensures Abs(angle) <= 1.0 ==> f * cos(angle) == 1.0
  {
    if Abs(angle) > 1.0 then TiltCap else 1.0 / cos(angle)
  }

  /** Compensation of the vertical loss of thrust, starting from 1.0: within
      one radian each axis divides by its cosine, beyond it each axis
      multiplies by the cap. */
  function TiltFactor(roll: real, pitch: real, cos: real -> real): (z: real)
    requires Abs(roll) <= 1.0 ==> cos(roll) != 0.0
    requires Abs(pitch) <= 1.0 ==> cos(pitch) != 0.0
    ensures Abs(roll) <= 1.0 && Abs(pitch) <= 1.0 ==> z * cos(roll) * cos(pitch) == 1.0
    ensures Abs(roll) <= 1.0 && Abs(pitch) > 1.0 ==> z * cos(roll) == TiltCap
    ensures Abs(roll) > 1.0 && Abs(pitch) <= 1.0 ==> z * cos(pitch) == TiltCap
    ensures Abs(roll) > 1.0 && Abs(pitch) > 1.0 ==> z == TiltCap * TiltCap
  {
    var fr, fp := AxisFactor(roll, cos), AxisFactor(pitch, cos);
    assert fr * fp * cos(roll) == (fr * cos(roll)) * fp;
    assert fr * fp * cos(pitch) == fr * (fp * cos(pitch));
    assert fr * fp * cos(roll) * cos(pitch) == (fr * cos(roll)) * (fp * cos(pitch));
    1.0 * fr * fp
  }

  /** The base thrust after mode gating and tilt compensation: zero when not
      flying, otherwise the setpoint divided by the cosine of each axis within
      one radian and multiplied by the cap for each axis beyond it. */
  function CompensatedThrust(state: SystemState, thrust: real, roll: real, pitch: real, cos: real -> real): (r: real)
    requires Abs(roll) <= 1.0 ==> cos(roll) != 0.0
    requires Abs(pitch) <= 1.0 ==> cos(pitch) != 0.0
    ensures !state.IsFlying() ==> r == 0.0
    ensures state.IsFlying() && Abs(roll) <= 1.0 && Abs(pitch) <= 1.0 ==> r * cos(roll) * cos(pitch) == thrust
    ensures state.IsFlying() && Abs(roll) <= 1.0 && Abs(pitch) > 1.0 ==> r * cos(roll) == thrust * TiltCap
    ensures state.IsFlying() && Abs(roll) > 1.0 && Abs(pitch) <= 1.0 ==> r * cos(pitch) == thrust * TiltCap
    ensures state.IsFlying() && Abs(roll) > 1.0 && Abs(pitch) > 1.0 ==> r == thrust * TiltCap * TiltCap
  {
    var z := TiltFactor(roll, pitch, cos);
    assert thrust * z * cos(roll) * cos(pitch) == thrust * (z * cos(roll) * cos(pitch));
    assert thrust * z * cos(roll) == thrust * (z * cos(roll));
    assert thrust * z * cos(pitch) == thrust * (z * cos(pitch));
    ModeThrust(state, thrust) * z
  }

  /** What is known of the cosine on the interval where it is used. */
  ghost predicate CosBounded(cos: real -> real) {
    forall a :: -1.0 <= a <= 1.0 ==> 0.0 < cos(a) <= 1.0
  }

  lemma ProductNonNegative(a: real, b: real)
    requires 0.0 <= a && 0.0 <= b
    ensures 0.0 <= a * b
  {
  }

  lemma AxisFactorAtLeastOne(angle: real, cos: real -> real)
    requires CosBounded(cos)
    ensures Abs(angle) <= 1.0 ==> cos(angle) != 0.0
    ensures AxisFactor(angle, cos) >= 1.0
  {
    if Abs(angle) <= 1.0 {
      // f = f * cos + f * (1 - cos), and both parts are non-negative
      var c, f := cos(angle), AxisFactor(angle, cos);
      ProductNonNegative(1.0 - c, f);
    }
  }

  /** The tilt factor is the product of the two per-axis factors, never
      below 1, and the square of the cap when both axes are past one radian. */
  lemma TiltAtLeastOne(roll: real, pitch: real, cos: real -> real)
    requires CosBounded(cos)
    ensures Abs(roll) <= 1.0 ==> cos(roll) != 0.0
    ensures Abs(pitch) <= 1.0 ==> cos(pitch) != 0.0
    ensures TiltFactor(roll, pitch, cos) == AxisFactor(roll, cos) * AxisFactor(pitch, cos)
    ensures TiltFactor(roll, pitch, cos) >= 1.0
    ensures Abs(roll) > 1.0 && Abs(pitch) > 1.0 ==> TiltFactor(roll, pitch, cos) == TiltCap * TiltCap
  {
    AxisFactorAtLeastOne(roll, cos);
    AxisFactorAtLeastOne(pitch, cos);
    var fr, fp := AxisFactor(roll, cos), AxisFactor(pitch, cos);
    ProductNonNegative(fr - 1.0, fp);
    assert fr * fp - fp == (fr - 1.0) * fp;
  }

  /** The compensation scales a non-negative base thrust up, never down,
      and an idle state stays at zero whatever the attitude. */
  lemma CompensationNeverReducesThrust(state: SystemState, thrust: real, roll: real, pitch: real, cos: real -> real)
    requires CosBounded(cos)
    requires 0.0 <= thrust
    ensures Abs(roll) <= 1.0 ==> cos(roll) != 0.0
    ensures Abs(pitch) <= 1.0 ==> cos(pitch) != 0.0
    ensures state.IsFlying() ==> CompensatedThrust(state, thrust, roll, pitch, cos) >= thrust
    ensures !state.IsFlying() ==> CompensatedThrust(state, thrust, roll, pitch, cos) == 0.0
  {
    TiltAtLeastOne(roll, pitch, cos);
    var z := TiltFactor(roll, pitch, cos);
    ProductNonNegative(thrust, z - 1.0);
    assert thrust * z - thrust == thrust * (z - 1.0);
  }

  /** The base thrust the mixer works around together with its output band. */
  datatype Banded = Banded(thrust: real, band: real)

  /** The output band, piecewise in the base thrust; a base thrust at or below
      the minimum is raised to the minimum. The source's fourth guard is
      proved to hold whenever the first three fail. */
  function Band(t: real): (b: Banded)
    ensures t <= MinThrust ==> b == Banded(MinThrust, 0.0)
    ensures t > MinThrust ==> b.thrust == t
    ensures b.band == 0.0 <==> t <= MinThrust || t == MaxThrust
    ensures t <= MaxThrust ==> 0.0 <= b.band <= BandFactor * StartpointFullControl
    ensures t > MaxThrust ==> b.band < 0.0
    ensures t <= MaxThrust ==> 0.0 <= b.thrust - b.band && b.thrust + b.band <= MaxThrust
    ensures t < MaxThrust ==> b.thrust + b.band < MaxThrust
    ensures t >= MaxThrust ==> b.thrust + b.band >= MaxThrust
  {
    if t <= MinThrust then
      Banded(MinThrust, 0.0)
    else if t < StartpointFullControl && t > MinThrust then
      Banded(t, BandFactor * (t - MinThrust))
    else if t >= StartpointFullControl && t < MaxThrust - BandFactor * StartpointFullControl then
      Banded(t, BandFactor * StartpointFullControl)
    else
      assert t >= MaxThrust - BandFactor * StartpointFullControl;
      Banded(t, BandFactor * (MaxThrust - t))
  }

  /** The band is not continuous: it jumps up where full control starts and
      down where the shrinking part begins. */
  lemma BandJumpsAtBreakpoints(t: real)
    ensures MinThrust < t < StartpointFullControl ==> Band(t).band < 0.1725
    ensures Band(StartpointFullControl).band == 0.1875
    ensures StartpointFullControl <= t < 0.8125 ==> Band(t).band == 0.1875
    ensures Band(0.8125).band == 0.140625
  {
  }
}
