/** The heading-error engine (`compute_heading_error`): the clamped error with
    its wind-mode sign convention, the clamped time integral, and the command
    recomputed on a mode switch. */
module HeadingError {
  import opened Angles
  import opened Modes

  /** Largest heading error reported, in degrees. */
  const MaxError: real := 60.0
  /** Full-scale rate that normalises the integral, in degrees per second. */
  const IntegralScale: real := 1500.0

  /** The sign that turns a course error into the mode's error convention:
      wind modes give where the wind comes from, so the sign is reversed. */
  function Sign(m: Mode): (s: real)
    ensures s == 1.0 || s == -1.0
    ensures s == -1.0 <==> IsWind(m)
  {
    if IsWind(m) then -1.0 else 1.0
  }

  /** `heading_error` for mode `m`: the shortest turn from the command to the
      heading, saturated at 60 degrees, negated in wind modes. */
  function ErrorOf(m: Mode, heading: real, command: real): (e: real)
    ensures -MaxError <= e <= MaxError
    ensures var diff := Resolv(heading - command, 0.0);
      && (-MaxError <= diff <= MaxError ==> Sign(m) * e == diff)
      && (diff > MaxError ==> Sign(m) * e == MaxError)
      && (diff < -MaxError ==> Sign(m) * e == -MaxError)
  {
    var err := MinMax(Resolv(heading - command, 0.0), MaxError);
    if IsWind(m) then -err else err
  }

  /** The command `compute_heading_error` sets on a mode switch: the heading
      minus the previous error, converted to the new mode's convention and
      stored in the new mode's range. */
  function SwitchCommand(m: Mode, heading: real, previous: real): (c: real)
    ensures Congruent(c, heading - Sign(m) * previous)
  {
    CommandValue(m, heading - (if IsWind(m) then -previous else previous))
  }

  /** Switching mode does not move the rudder: when the previous error was
      within the reported range, the error recomputed against the new command
      equals it. */
  lemma SwitchKeepsError(m: Mode, heading: real, previous: real)
    requires -MaxError <= previous <= MaxError
    ensures ErrorOf(m, heading, SwitchCommand(m, heading, previous)) == previous
  {
    var c := SwitchCommand(m, heading, previous);
    var s := Sign(m);
    var target := s * previous;
    assert -MaxError <= target <= MaxError;
    var k :| c - (heading - target) == Turns(k);
    assert target - (heading - c) == Turns(k);
    ResolvUnique(heading - c, 0.0, target);
  }

  /** The `dt` used by the integral: the time since its last update, at most one second. */
  function ClampedDt(t: real, last: real): (dt: real)
    ensures dt <= 1.0 && dt <= t - last
    ensures dt == t - last || dt == 1.0
    ensures t - last <= 1.0 ==> dt == t - last
  {
    if t - last <= 1.0 then t - last else 1.0
  }

  /** `heading_error_int` after one update: the error, scaled by 1/1500 and by
      `dt`, added to the integral, saturated at one. */
  function IntegralStep(integral: real, error: real, dt: real): (r: real)
    ensures -1.0 <= r <= 1.0
    ensures var v := integral + (error / IntegralScale) * dt;
      && (-1.0 <= v <= 1.0 ==> r == v)
      && (v > 1.0 ==> r == 1.0)
      && (v < -1.0 ==> r == -1.0)
  {
    MinMax(integral + (error / IntegralScale) * dt, 1.0)
  }

  /** With no time elapsed, the integral only saturates: a value already in
      range is kept. */
  lemma IntegralStepNoTime(integral: real, error: real)
    requires -1.0 <= integral <= 1.0
    ensures IntegralStep(integral, error, 0.0) == integral
  {
    assert (error / IntegralScale) * 0.0 == 0.0;
  }

  /** The wind-mode error is the negated course error of the other modes. */
  lemma WindErrorReversed(heading: real, command: real)
    ensures ErrorOf(Wind, heading, command) == -ErrorOf(Compass, heading, command)
    ensures ErrorOf(TrueWind, heading, command) == -ErrorOf(Gps, heading, command)
    ensures ErrorOf(Wind, heading, command) == -MinMax(Resolv(heading - command, 0.0), MaxError)
  {
  }
}
