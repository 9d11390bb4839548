/** The cross mixer: symmetric limiting of the three control outputs, the
    mixing law for the front, right, back and left motors, the retry with
    halved yaw when the first mix leaves the output band, and the final
    clamp of every motor into the band. */
module Mixer {

  /** Outputs of the pitch ("nick"), roll and yaw-rate controllers. */
  datatype AxisControls = AxisControls(nick: real, roll: real, yawRate: real)

  /** A limited control output, and whether a limit was applied. */
  datatype Clamped = Clamped(value: real, fired: bool)

  /** Limits a control output to [-lim, lim]: first the upper test, then the
      lower one, each of which reports saturation when it fires. */
  function ClampAxis(v: real, lim: real): (c: Clamped)
    ensures 0.0 <= lim ==> -lim <= c.value <= lim
    ensures 0.0 <= lim ==> (c.fired <==> v < -lim || lim < v)
    ensures 0.0 <= lim && -lim <= v <= lim ==> c.value == v
    ensures 0.0 <= lim && lim < v ==> c.value == lim
    ensures 0.0 <= lim && v < -lim ==> c.value == -lim
    ensures lim < 0.0 ==> c == Clamped(-lim, true)
  {
    var upper := if v > lim then Clamped(lim, true) else Clamped(v, false);
    if upper.value < -lim then Clamped(-lim, true) else upper
  }

  /** Motor order of the cross configuration. */
  const Front: nat := 0
  const Right: nat := 1
  const Back: nat := 2
  const Left: nat := 3

  /** Differential thrust about the roll axis (left side minus right side). */
  function RollTorque(m: seq<real>): real
    requires |m| == 4
  {
    (m[Front] + m[Left] - m[Right] - m[Back]) / 2.0
  }

  /** Differential thrust about the pitch axis (front side minus back side). */
  function NickTorque(m: seq<real>): real
    requires |m| == 4
  {
    (m[Front] + m[Right] - m[Back] - m[Left]) / 2.0
  }

  /** Differential thrust between the two counter-rotating motor pairs. */
  function YawTorque(m: seq<real>): real
    requires |m| == 4
  {
    (m[Right] + m[Left] - m[Front] - m[Back]) / 4.0
  }

  function Sum(m: seq<real>): real
    requires |m| == 4
  {
    m[Front] + m[Right] + m[Back] + m[Left]
  }

  /** One pass of the mixer: the base thrust plus half the roll and nick
      outputs and the yaw output scaled by `yawFactor`, with each motor's
      fixed signs. The corrections cancel out, and each axis drives only its
      own differential. */
  function Mix(t: real, c: AxisControls, yawFactor: real): (m: seq<real>)
    ensures |m| == 4
    ensures Sum(m) == 4.0 * t
    ensures RollTorque(m) == c.roll
    ensures NickTorque(m) == c.nick
    ensures YawTorque(m) == c.yawRate * yawFactor
  {
    [ t + (c.roll / 2.0 + c.nick / 2.0 - c.yawRate * yawFactor),
      t + (-c.roll / 2.0 + c.nick / 2.0 + c.yawRate * yawFactor),
      t + (-c.roll / 2.0 - c.nick / 2.0 - c.yawRate * yawFactor),
      t + (c.roll / 2.0 - c.nick / 2.0 + c.yawRate * yawFactor) ]
  }

  /** The mean thrust and the three differentials determine the four motors:
      any motor vector with those values is the mix. */
  lemma MixDeterminedByTorques(m: seq<real>, t: real, c: AxisControls, yawFactor: real)
    requires |m| == 4
    requires Sum(m) == 4.0 * t
    requires RollTorque(m) == c.roll && NickTorque(m) == c.nick
    requires YawTorque(m) == c.yawRate * yawFactor
    ensures m == Mix(t, c, yawFactor)
  {
    var mix := Mix(t, c, yawFactor);
    assert m[Front] == mix[Front];
    assert m[Right] == mix[Right];
    assert m[Back] == mix[Back];
    assert m[Left] == mix[Left];
  }

  /** With no control output every motor gets exactly the base thrust. */
  lemma MixWithoutControls(t: real, yawFactor: real)
    ensures Mix(t, AxisControls(0.0, 0.0, 0.0), yawFactor) == [t, t, t, t]
  {
  }

  /** Every motor strictly inside the open band (t - band, t + band). */
  predicate StrictlyInside(m: seq<real>, t: real, band: real) {
    forall i :: 0 <= i < |m| ==> t - band < m[i] < t + band
  }

  /** Only a positive band has motors strictly inside it, and motors
      strictly inside are left alone by the band clamp. */
  lemma InsideBandSurvivesClamp(m: seq<real>, t: real, band: real)
    requires StrictlyInside(m, t, band)
    ensures |m| > 0 ==> 0.0 < band
    ensures ClampAll(m, t, band) == m
  {
    if |m| > 0 {
      assert t - band < m[0] < t + band;
    }
  }

  /** The first mix, kept if every motor is strictly inside the band, and
      otherwise all four motors mixed again with the yaw output halved.
      Roll and nick are never touched; with no positive band the retry
      always runs. */
  function MixWithRetry(t: real, band: real, c: AxisControls): (m: seq<real>)
    ensures |m| == 4
    ensures Sum(m) == 4.0 * t
    ensures RollTorque(m) == c.roll && NickTorque(m) == c.nick
    ensures YawTorque(m) == if StrictlyInside(Mix(t, c, 1.0), t, band) then c.yawRate else c.yawRate / 2.0
    ensures band <= 0.0 ==> YawTorque(m) == c.yawRate / 2.0
  {
    var first := Mix(t, c, 1.0);
    if StrictlyInside(first, t, band) then first else Mix(t, c, 0.5)
  }

  /** Clamp of one motor into [t - band, t + band]: first raised to the lower
      edge, then lowered to the upper edge. With a negative band the two
      edges cross and the result is always the upper one. */
  function BandClamp(x: real, t: real, band: real): (r: real)
    ensures 0.0 <= band ==> t - band <= r <= t + band
    ensures 0.0 <= band && t - band <= x <= t + band ==> r == x
    ensures 0.0 <= band && x < t - band ==> r == t - band
    ensures 0.0 <= band && t + band < x ==> r == t + band
    ensures band < 0.0 ==> r == t + band
  {
    var raised := if x < t - band then t - band else x;
    if raised > t + band then t + band else raised
  }

  /** The band clamp applied to every motor: for a non-negative band every
      motor ends inside it and those already inside keep their value; for a
      negative band every motor ends at t + band. */
  function ClampAll(m: seq<real>, t: real, band: real): (r: seq<real>)
    ensures |r| == |m|
    ensures 0.0 <= band ==> forall i :: 0 <= i < |r| ==> t - band <= r[i] <= t + band
    ensures 0.0 <= band ==> forall i :: 0 <= i < |r| && t - band <= m[i] <= t + band ==> r[i] == m[i]
    ensures band < 0.0 ==> forall i :: 0 <= i < |r| ==> r[i] == t + band
  {
    seq(|m|, i requires 0 <= i < |m| => BandClamp(m[i], t, band))
  }

  /** With no control output and a non-negative band, the mixer and the
      band clamp leave every motor at exactly the base thrust. */
  lemma UniformMotorsWithoutControls(t: real, band: real)
    requires 0.0 <= band
    ensures ClampAll(MixWithRetry(t, band, AxisControls(0.0, 0.0, 0.0)), t, band) == [t, t, t, t]
  {
    var zero := AxisControls(0.0, 0.0, 0.0);
    MixWithoutControls(t, 1.0);
    MixWithoutControls(t, 0.5);
    assert MixWithRetry(t, band, zero) == [t, t, t, t];
  }

  /** The limit loop over the first four motors, in place. */
  method ClampToBand(a: array<real>, t: real, band: real)
    requires 4 <= a.Length
    modifies a
    ensures a[..4] == ClampAll(old(a[..4]), t, band)
    ensures a[4..] == old(a[4..])
  {
    for i := 0 to 4
      invariant forall k :: 0 <= k < i ==> a[k] == BandClamp(old(a[k]), t, band)
      invariant forall k :: i <= k < a.Length ==> a[k] == old(a[k])
    {
      if a[i] < t - band {
        a[i] := t - band;
      }
      if a[i] > t + band {
        a[i] := t + band;
      }
    }
    assert a[..4] == ClampAll(old(a[..4]), t, band);
  }
}
