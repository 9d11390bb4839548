/** Output stage: conversion of a motor value to the actuator's units,
    as the firmware writes it, and the two failsafe clamps. */
module Actuator {
  import Thrust

  /** 100% thrust equals a value of 512. */
  const Scaling: real := 512.0
  /** Value range sent to the motors. */
  const MinGas: real := Thrust.MinThrust * Scaling
  const MaxGas: real := Thrust.MaxThrust * Scaling
  /** Value forced when the converted value is not positive. */
  const IdleFloor: int := 10
  /** Largest value passed to the motors. */
  const PwmMax: int := 512

  /** Conversion of a real to an integer type: truncation toward zero. */
  function Trunc(x: real): (n: int)
    ensures 0.0 <= x ==> 0 <= n && n as real <= x < n as real + 1.0
    ensures x < 0.0 ==> n <= 0 && n as real - 1.0 < x <= n as real
  {
    if x >= 0.0 then x.Floor else -((-x).Floor)
  }

  /** The scaling as written: the cast to a 16-bit integer binds tighter
      than the multiplication, so the motor value is truncated first, then
      scaled and offset, then truncated again on assignment. Every motor
      value strictly between -1 and 1 therefore gives 10, and every value of
      at least 1 gives at least 512. */
  function ScaleToGas(x: real): (g: int)
    ensures -1.0 < x < 1.0 ==> g == IdleFloor
    ensures 1.0 <= x ==> PwmMax <= g
    ensures x <= -1.0 ==> g <= 0
  {
    var k := Trunc(x);
    assert MaxGas - MinGas == 501.76 && MinGas == 10.24;
    // below 1 in magnitude the motor value truncates to 0, leaving the offset
    assert -1.0 < x < 1.0 ==> k == 0 && Trunc(10.24) == 10;
    Trunc(k as real * (MaxGas - MinGas) + MinGas)
  }

  /** Keeps the motors spinning (a non-positive value becomes 10) and
      prevents overflow (a value above 512 becomes 512). */
  function Failsafe(raw: int): (p: int)
    ensures 1 <= p <= PwmMax
    ensures 0 < raw <= PwmMax ==> p == raw
    ensures raw <= 0 ==> p == IdleFloor
    ensures PwmMax < raw ==> p == PwmMax
  {
    var spinning := if raw > 0 then raw else IdleFloor;
    if spinning <= PwmMax then spinning else PwmMax
  }

  /** The value sent for one motor. */
  function Pwm(x: real): (p: int)
    ensures 1 <= p <= PwmMax
  {
    Failsafe(ScaleToGas(x))
  }

  /** Because the motor value is truncated before it is scaled, the sent
      value takes only two values: 512 for a motor value of at least 1 and
      the idle floor 10 for anything below. */
  lemma PwmIsBinary(x: real)
    ensures Pwm(x) == if x >= 1.0 then PwmMax else IdleFloor
  {
  }
}
