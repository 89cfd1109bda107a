/** The calibration compensator (`fix_compass_calibration_change`): the size of
    a jump in the compass heading caused by a calibration update or by a change
    of the IMU's alignment offset. */
module Calibration {
  import opened Angles
  import opened Modes
  import opened Wrappers
  import opened Readings
  import opened HeadingError

  /** Longest interval, in seconds, over which the turn rate is discounted. */
  const MaxRateInterval: real := 0.25

  /** The interval over which the turn rate is discounted: the time since the
      last cycle, at most a quarter of a second. */
  function RateInterval(t0: real, lastTime: real): (dt: real)
    ensures dt <= MaxRateInterval && dt <= t0 - lastTime
    ensures dt == t0 - lastTime || dt == MaxRateInterval
  {
    if t0 - lastTime <= MaxRateInterval then t0 - lastTime else MaxRateInterval
  }

  /** The jump caused by a calibration update: the new heading, less what the
      boat turned since the last cycle, less the last heading resolved near the
      new one. Counted only for a read flagged as a calibration update when a
      previous heading is known; a previous heading of exactly 0 reads as none,
      as the source's `False` does. */
  function CalibrationJump(data: Option<ImuRead>, lastHeading: real, rate: real, dt: real): (j: real)
    ensures !(data.Some? && data.value.calibrationUpdated && lastHeading != 0.0) ==> j == 0.0
    ensures data.Some? && data.value.calibrationUpdated && lastHeading != 0.0 ==>
      && -180.0 < j + rate * dt <= 180.0
      && Congruent(j + rate * dt, data.value.heading - lastHeading)
  {
    if data.Some? && data.value.calibrationUpdated && lastHeading != 0.0 then
      var h := data.value.heading;
      var near := Resolv(lastHeading, h);
      var k :| near - lastHeading == Turns(k);
      assert h - near - (h - lastHeading) == Turns(-k);
      h - rate * dt - near
    else
      0.0
  }

  /** The jump caused by a change of the alignment offset from `last` to
      `current`: the signed shortest turn between them, zero when unchanged. */
  function AlignmentJump(last: real, current: real): (j: real)
    ensures last == current ==> j == 0.0
    ensures -180.0 < j <= 180.0
    ensures Congruent(j, current - last)
  {
    if last != current then
      var near := Resolv(last, current);
      var k :| near - last == Turns(k);
      assert current - near - (current - last) == Turns(-k);
      current - near
    else
      assert 0.0 - (current - last) == Turns(0);
      0.0
  }

  /** In compass mode the compensator keeps the physical error: a heading that
      jumps by `jump` together with a command shifted by the same `jump` (and
      resolved into `[0, 360)`) gives the same heading error as before. */
  lemma CompensationKeepsError(heading: real, command: real, jump: real)
    ensures ErrorOf(Compass, heading + jump, CommandValue(Compass, command + jump))
         == ErrorOf(Compass, heading, command)
  {
    var c := CommandValue(Compass, command + jump);
    var k :| c - (command + jump) == Turns(k);
    assert heading + jump - c - (heading - command) == Turns(-k);
    ResolvCongruent(heading + jump - c, heading - command, 0.0);
  }
}
