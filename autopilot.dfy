/** The autopilot control loop (`Autopilot` in pypilot/autopilot.py): the state
    one process keeps across cycles and the operations that update it. */
module Autopilot {
  import opened Angles
  import opened Modes
  import opened Filters
  import opened Wrappers
  import opened Readings
  import opened HeadingError
  import opened Calibration
  import opened Supervisor
  import opened Lifecycle

  /** Blend of the GPS speed average per cycle. */
  const GpsSpeedBlend: real := 0.002
  /** Blend of the wind speed average per cycle. */
  const WindSpeedBlend: real := 0.005
  /** Fixed blend of the true-wind offset, whatever the speeds. */
  const TrueWindBlend: real := 0.05
  /** Slowest GPS speed, in knots, at which the GPS offset is updated. */
  const MinGpsSpeed: real := 1.0

  /** Blend of the GPS offset: grows with the logarithm of the smoothed speed.
      It is a factor in `[0, 1]` while that logarithm lies in `[0, 200]`, and
      negative when that logarithm is negative. */
  function GpsOffsetBlend(ln: real -> real, smoothedSpeed: real): (d: real)
    ensures 0.0 <= ln(smoothedSpeed + 1.0) <= 200.0 ==> 0.0 <= d <= 1.0
    ensures ln(smoothedSpeed + 1.0) < 0.0 ==> d < 0.0
  {
    0.005 * ln(smoothedSpeed + 1.0)
  }

  /** Blend of the wind direction and wind offset: grows with the logarithm of
      the sampled wind speed. It is a factor in `[0, 1]` while that logarithm
      lies in `[0, 20]`, and negative when it is negative. */
  function WindBlend(ln: real -> real, windSpeed: real): (d: real)
    ensures 0.0 <= ln(windSpeed / 5.0 + 1.2) <= 20.0 ==> 0.0 <= d <= 1.0
    ensures ln(windSpeed / 5.0 + 1.2) < 0.0 ==> d < 0.0
  {
    0.05 * ln(windSpeed / 5.0 + 1.2)
  }

  /** The command after a compass change of `change` degrees: shifted by it,
      and stored in the compass range, only in compass mode and only when
      there is a change. */
  function CompensatedCommand(m: Mode, command: real, change: real): (r: real)
    ensures m == Compass && change != 0.0 ==> Congruent(r, command + change) && 0.0 <= r < 360.0
    ensures m != Compass || change == 0.0 ==> r == command
  {
    if change != 0.0 && m == Compass then CommandValue(Compass, command + change) else command
  }

  /** What one cycle receives from its collaborators. `ln` stands for the
      natural logarithm and `trueWindOf(gpsSpeed, windSpeed, windDirection)`
      for `compute_true_wind`; `enabled` is the value of the `enabled`
      property once the server has delivered the clients' writes; `busy` is
      the time the cycle's stages take,
      not counting the pauses between failed IMU reads. */
  datatype Cycle = Cycle(
    t0: real,
    rate: real,
    outcomes: seq<Option<ImuRead>>,
    headingRate: real,
    headingOff: real,
    compass: real,
    gps: Option<GpsFix>,
    wind: Option<WindFix>,
    ln: real -> real,
    trueWindOf: (real, real, real) -> real,
    enabled: bool,
    bestMode: Mode -> Mode,
    pilotHeading: real,
    tackClaims: bool,
    busy: real)

  /** What one cycle did towards the outside: the IMU read it obtained, how
      many attempts it took and the slack they accumulated, the argument of
      `pilot.process` if it was called, whether the watchdog was written, the
      pauses taken to finish the period and the time the cycle ended. */
  datatype Report = Report(
    imu: Option<ImuRead>,
    imuAttempts: nat,
    slack: real,
    reset: bool,
    pilotProcess: Option<bool>,
    watchdogFed: bool,
    pauses: seq<real>,
    finish: real)

  class Autopilot {
    var mode: Mode
    var preferredMode: Mode
    var lastMode: Option<Mode>
    var headingCommand: real
    var heading: real
    var headingError: real
    var headingErrorInt: real
    var headingErrorIntTime: real
    var enabled: bool
    var lastEnabled: bool
    /** The last IMU heading; 0 stands for the source's initial `False`. */
    var lastHeading: real
    var lastHeadingOff: real
    var lastTime: real
    var compassChange: real
    var gpsSpeed: real
    var windSpeed: real
    var windDirection: real
    /** `servo.force_engaged`. */
    var forceEngaged: bool
    var childProcesses: seq<Child>
    /** Signals whose handler was replaced by SIG_IGN. */
    var ignoredSignals: set<int>
    const gpsOffset: HeadingOffset
    const windOffset: HeadingOffset
    const trueWindOffset: HeadingOffset
    /** Whether the watchdog device could be opened. */
    const watchdog: bool

    /** The three offset filters are distinct objects, and the published error
        and integral stay within their clamps. */
    ghost predicate Valid()
      reads this
    {
      && gpsOffset != windOffset && gpsOffset != trueWindOffset && windOffset != trueWindOffset
      && -MaxError <= headingError <= MaxError
      && -1.0 <= headingErrorInt <= 1.0
    }

    /** Start-up state: `persistedMode` is the mode loaded from the persistent
        store (`compass` by default), `now` the clock when the error integral
        is set up and `ready` the clock at the end of set-up, `headingOff` the
        IMU's alignment offset, `children` the spawned collaborators, and
        `watchdog` whether the watchdog device opened. */
    constructor (persistedMode: Mode, now: real, ready: real, headingOff: real, children: seq<Child>, watchdog: bool)
      ensures Valid()
      ensures fresh(gpsOffset) && fresh(windOffset) && fresh(trueWindOffset)
      ensures mode == persistedMode && preferredMode == Compass && lastMode == None
      ensures headingCommand == 0.0 && heading == 0.0 && headingError == 0.0 && headingErrorInt == 0.0
      ensures headingErrorIntTime == now && lastTime == ready
      ensures !enabled && !lastEnabled && !forceEngaged
      ensures lastHeading == 0.0 && lastHeadingOff == headingOff && compassChange == 0.0
      ensures gpsSpeed == 0.0 && windSpeed == 0.0 && windDirection == 0.0
      ensures gpsOffset.value == 0.0 && windOffset.value == 0.0 && trueWindOffset.value == 0.0
      ensures childProcesses == children && ignoredSignals == {} && this.watchdog == watchdog
    {
      mode, preferredMode, lastMode := persistedMode, Compass, None;
      headingCommand, heading, headingError, headingErrorInt := 0.0, 0.0, 0.0, 0.0;
      headingErrorIntTime, lastTime := now, ready;
      enabled, lastEnabled, forceEngaged := false, false, false;
      lastHeading, lastHeadingOff, compassChange := 0.0, headingOff, 0.0;
      gpsSpeed, windSpeed, windDirection := 0.0, 0.0, 0.0;
      gpsOffset := new HeadingOffset();
      windOffset := new HeadingOffset();
      trueWindOffset := new HeadingOffset();
      childProcesses, ignoredSignals := children, {};
      this.watchdog := watchdog;
    }

    /** `ModeProperty.set`: a mode chosen by the user also becomes the preferred mode. */
    method SetMode(value: Mode)
      modifies this`mode, this`preferredMode
      ensures mode == value && preferredMode == value
    {
      preferredMode := value;
      SetModeInternal(value);
    }

    /** `ModeProperty.set_internal`: a mode chosen by the pilot leaves the preference alone. */
    method SetModeInternal(value: Mode)
      modifies this`mode
      ensures mode == value
    {
      mode := value;
    }

    /** `adjust_mode`: switch to the pilot's best mode for the preferred mode. */
    method AdjustMode(bestMode: Mode -> Mode)
      modifies this`mode
      ensures mode == bestMode(preferredMode)
    {
      var newMode := bestMode(preferredMode);
      if mode != newMode {
        SetModeInternal(newMode);
      }
    }

    /** `HeadingProperty.set`: store a command in the current mode's range. */
    method SetHeadingCommand(value: real)
      modifies this`headingCommand
      ensures headingCommand == CommandValue(mode, value)
      ensures Congruent(headingCommand, value)
    {
      headingCommand := CommandValue(mode, value);
    }

    /** `fix_compass_calibration_change`: measure the jump in the compass
        heading caused by a calibration update or an alignment change and move
        the offsets, and in compass mode the command, by it, so that the
        course actually steered does not change. */
    method FixCompassCalibrationChange(data: Option<ImuRead>, t0: real, headingRate: real, headingOff: real)
      requires Valid()
      modifies this`lastTime, this`lastHeading, this`lastHeadingOff, this`compassChange, this`headingCommand
      modifies gpsOffset, windOffset, trueWindOffset
      ensures Valid()
      ensures lastTime == t0
      ensures lastHeading == (if data.Some? then data.value.heading else old(lastHeading))
      ensures lastHeadingOff == headingOff
      ensures compassChange
        == CalibrationJump(data, old(lastHeading), headingRate, RateInterval(t0, old(lastTime)))
         + AlignmentJump(old(lastHeadingOff), headingOff)
      ensures gpsOffset.value == old(gpsOffset.value) - compassChange
      ensures windOffset.value == old(windOffset.value) + compassChange
      ensures trueWindOffset.value == old(trueWindOffset.value) + compassChange
      ensures headingCommand == CompensatedCommand(mode, old(headingCommand), compassChange)
    {
      var dt := RateInterval(t0, lastTime);
      lastTime := t0;
      var calibrationJump := MeasureCalibrationJump(data, headingRate, dt);
      var alignmentJump := MeasureAlignmentJump(headingOff);
      compassChange := calibrationJump + alignmentJump;

      if compassChange != 0.0 {
        gpsOffset.value := gpsOffset.value - compassChange;
        windOffset.value := windOffset.value + compassChange;
        trueWindOffset.value := trueWindOffset.value + compassChange;
        if mode == Compass {
          var command := headingCommand + compassChange;
          ResolvIdempotent(command, 180.0);
          SetHeadingCommand(Resolv(command, 180.0));
        }
      }
    }

    /** The first half of `fix_compass_calibration_change`: the jump caused by
        a calibration update, and the refresh of the last heading. */
    method MeasureCalibrationJump(data: Option<ImuRead>, headingRate: real, dt: real) returns (jump: real)
      modifies this`lastHeading
      ensures jump == CalibrationJump(data, old(lastHeading), headingRate, dt)
      ensures lastHeading == (if data.Some? then data.value.heading else old(lastHeading))
    {
      jump := 0.0;
      if data.Some? {
        if data.value.calibrationUpdated && lastHeading != 0.0 {
          var last := Resolv(lastHeading, data.value.heading);
          jump := data.value.heading - headingRate * dt - last;
        }
        lastHeading := data.value.heading;
      }
    }

    /** The second half of `fix_compass_calibration_change`: the jump caused by
        a change of the IMU's alignment offset, and the refresh of the last
        offset. */
    method MeasureAlignmentJump(headingOff: real) returns (jump: real)
      modifies this`lastHeadingOff
      ensures jump == AlignmentJump(old(lastHeadingOff), headingOff)
      ensures lastHeadingOff == headingOff
    {
      jump := 0.0;
      if lastHeadingOff != headingOff {
        lastHeadingOff := Resolv(lastHeadingOff, headingOff);
        jump := headingOff - lastHeadingOff;
        lastHeadingOff := headingOff;
      }
    }

    /** `compute_offsets`: fold this cycle's GPS and wind readings into the
        speed averages, the smoothed wind direction and the three offset
        filters. Each is touched only when its sources are present. */
    method ComputeOffsets(compass: real, gps: Option<GpsFix>, wind: Option<WindFix>,
                          ln: real -> real, trueWindOf: (real, real, real) -> real)
      requires Valid()
      modifies this`gpsSpeed, this`windSpeed, this`windDirection
      modifies gpsOffset, windOffset, trueWindOffset
      ensures Valid()
      ensures gpsSpeed == if gps.Some? then Blend(GpsSpeedBlend, gps.value.speed, old(gpsSpeed)) else old(gpsSpeed)
      ensures gpsOffset.value ==
        if gps.Some? && gps.value.speed > MinGpsSpeed
        then OffsetUpdate(old(gpsOffset.value), gps.value.track - compass, GpsOffsetBlend(ln, gpsSpeed))
        else old(gpsOffset.value)
      ensures windSpeed == if wind.Some? then Blend(WindSpeedBlend, wind.value.speed, old(windSpeed)) else old(windSpeed)
      ensures windDirection ==
        if wind.Some?
        then OffsetUpdate(old(windDirection), wind.value.direction, WindBlend(ln, wind.value.speed))
        else old(windDirection)
      ensures windOffset.value ==
        if wind.Some?
        then OffsetUpdate(old(windOffset.value), windDirection + compass, WindBlend(ln, wind.value.speed))
        else old(windOffset.value)
      ensures trueWindOffset.value ==
        if wind.Some? && gps.Some?
        then OffsetUpdate(old(trueWindOffset.value), trueWindOf(gpsSpeed, windSpeed, windDirection) + compass, TrueWindBlend)
        else old(trueWindOffset.value)
    {
      UpdateFromGps(compass, gps, ln);
      UpdateFromWind(compass, gps.Some?, wind, ln, trueWindOf);
    }

    /** The GPS half of `compute_offsets`. */
    method UpdateFromGps(compass: real, gps: Option<GpsFix>, ln: real -> real)
      modifies this`gpsSpeed, gpsOffset
      ensures gpsSpeed == if gps.Some? then Blend(GpsSpeedBlend, gps.value.speed, old(gpsSpeed)) else old(gpsSpeed)
      ensures gpsOffset.value ==
        if gps.Some? && gps.value.speed > MinGpsSpeed
        then OffsetUpdate(old(gpsOffset.value), gps.value.track - compass, GpsOffsetBlend(ln, gpsSpeed))
        else old(gpsOffset.value)
    {
      if gps.Some? {
        gpsSpeed := Blend(GpsSpeedBlend, gps.value.speed, gpsSpeed);
        if gps.value.speed > MinGpsSpeed {
          gpsOffset.Update(gps.value.track - compass, GpsOffsetBlend(ln, gpsSpeed));
        }
      }
    }

    /** The wind half of `compute_offsets`; `gpsPresent` tells whether the GPS
        has a source, which the true-wind offset also needs. */
    method UpdateFromWind(compass: real, gpsPresent: bool, wind: Option<WindFix>,
                          ln: real -> real, trueWindOf: (real, real, real) -> real)
      requires Valid()
      modifies this`windSpeed, this`windDirection, windOffset, trueWindOffset
      ensures Valid()
      ensures windSpeed == if wind.Some? then Blend(WindSpeedBlend, wind.value.speed, old(windSpeed)) else old(windSpeed)
      ensures windDirection ==
        if wind.Some?
        then OffsetUpdate(old(windDirection), wind.value.direction, WindBlend(ln, wind.value.speed))
        else old(windDirection)
      ensures windOffset.value ==
        if wind.Some?
        then OffsetUpdate(old(windOffset.value), windDirection + compass, WindBlend(ln, wind.value.speed))
        else old(windOffset.value)
      ensures trueWindOffset.value ==
        if wind.Some? && gpsPresent
        then OffsetUpdate(old(trueWindOffset.value), trueWindOf(gpsSpeed, windSpeed, windDirection) + compass, TrueWindBlend)
        else old(trueWindOffset.value)
    {
      if wind.Some? {
        windSpeed := Blend(WindSpeedBlend, wind.value.speed, windSpeed);
        var d := WindBlend(ln, wind.value.speed);
        var near := Resolv(wind.value.direction, windDirection);
        var blended := Blend(d, near, windDirection);
        windDirection := Resolv(blended, 0.0);
        OffsetUpdateCongruentSample(windOffset.value, blended + compass, windDirection + compass, d) by {
          CongruentSymmetric(windDirection, blended);
          CongruentAdd(blended, windDirection, compass);
        }
        windOffset.Update(blended + compass, d);

        if gpsPresent {
          var trueWind := trueWindOf(gpsSpeed, windSpeed, windDirection);
          var offset := Resolv(trueWind + compass, trueWindOffset.value);
          OffsetUpdateCongruentSample(trueWindOffset.value, offset, trueWind + compass, TrueWindBlend);
          trueWindOffset.Update(offset, TrueWindBlend);
        }
      }
    }

    /** `compute_heading_error`: on a mode switch recompute the command so the
        error carries over; then compute the clamped error and update the
        clamped integral. */
    method ComputeHeadingError(t: real)
      requires Valid()
      modifies this`lastMode, this`headingCommand, this`headingError, this`headingErrorInt, this`headingErrorIntTime
      ensures Valid()
      ensures lastMode == Some(mode)
      ensures headingCommand ==
        if old(lastMode) != Some(mode) then SwitchCommand(mode, heading, old(headingError)) else old(headingCommand)
      ensures headingError == ErrorOf(mode, heading, headingCommand)
      ensures old(lastMode) != Some(mode) ==> headingError == old(headingError)
      ensures headingErrorIntTime == t
      ensures headingErrorInt == IntegralStep(old(headingErrorInt), headingError, ClampedDt(t, old(headingErrorIntTime)))
    {
      var windMode := IsWind(mode);

      if lastMode != Some(mode) {
        var error := headingError;
        if windMode {
          error := -error;
        }
        SetHeadingCommand(heading - error);
        SwitchKeepsError(mode, heading, headingError);
        lastMode := Some(mode);
      }

      var err := MinMax(Resolv(heading - headingCommand, 0.0), MaxError);
      if IsWind(mode) {
        err := -err;
      }
      headingError := err;

      var dt := ClampedDt(t, headingErrorIntTime);
      headingErrorIntTime := t;
      headingErrorInt := IntegralStep(headingErrorInt, headingError, dt);
    }

    /** The sensing stage of a cycle: compensate calibration and alignment
        changes, then fold the GPS and wind readings into the offsets, each
        starting from its compensated value. */
    method Sense(c: Cycle, data: Option<ImuRead>)
      requires Valid()
      modifies this`lastTime, this`lastHeading, this`lastHeadingOff, this`compassChange, this`headingCommand
      modifies this`gpsSpeed, this`windSpeed, this`windDirection
      modifies gpsOffset, windOffset, trueWindOffset
      ensures Valid()
      ensures lastTime == c.t0
      ensures lastHeading == (if data.Some? then data.value.heading else old(lastHeading))
      ensures lastHeadingOff == c.headingOff
      ensures compassChange
        == CalibrationJump(data, old(lastHeading), c.headingRate, RateInterval(c.t0, old(lastTime)))
         + AlignmentJump(old(lastHeadingOff), c.headingOff)
      ensures headingCommand == CompensatedCommand(mode, old(headingCommand), compassChange)
      ensures gpsSpeed == if c.gps.Some? then Blend(GpsSpeedBlend, c.gps.value.speed, old(gpsSpeed)) else old(gpsSpeed)
      ensures gpsOffset.value ==
        if c.gps.Some? && c.gps.value.speed > MinGpsSpeed
        then OffsetUpdate(old(gpsOffset.value) - compassChange, c.gps.value.track - c.compass, GpsOffsetBlend(c.ln, gpsSpeed))
        else old(gpsOffset.value) - compassChange
      ensures windSpeed == if c.wind.Some? then Blend(WindSpeedBlend, c.wind.value.speed, old(windSpeed)) else old(windSpeed)
      ensures windDirection ==
        if c.wind.Some?
        then OffsetUpdate(old(windDirection), c.wind.value.direction, WindBlend(c.ln, c.wind.value.speed))
        else old(windDirection)
      ensures windOffset.value ==
        if c.wind.Some?
        then OffsetUpdate(old(windOffset.value) + compassChange, windDirection + c.compass, WindBlend(c.ln, c.wind.value.speed))
        else old(windOffset.value) + compassChange
      ensures trueWindOffset.value ==
        if c.wind.Some? && c.gps.Some?
        then OffsetUpdate(old(trueWindOffset.value) + compassChange,
                          c.trueWindOf(gpsSpeed, windSpeed, windDirection) + c.compass, TrueWindBlend)
        else old(trueWindOffset.value) + compassChange
    {
      FixCompassCalibrationChange(data, c.t0, c.headingRate, c.headingOff);
      ComputeOffsets(c.compass, c.gps, c.wind, c.ln, c.trueWindOf);
    }

    /** The steering stage of a cycle: pick the mode, take the pilot's
        heading, compute the error and reset the integral on the rising edge of
        `enabled` (reported as `reset`). */
    method Steer(c: Cycle) returns (reset: bool)
      requires Valid()
      modifies this`mode, this`heading, this`lastMode, this`headingCommand, this`headingError
      modifies this`headingErrorInt, this`headingErrorIntTime, this`lastEnabled
      ensures Valid()
      ensures mode == c.bestMode(preferredMode)
      ensures lastMode == Some(mode)
      ensures heading == c.pilotHeading
      ensures headingCommand ==
        if old(lastMode) != Some(mode) then SwitchCommand(mode, heading, old(headingError)) else old(headingCommand)
      ensures headingError == ErrorOf(mode, heading, headingCommand)
      ensures old(lastMode) != Some(mode) ==> headingError == old(headingError)
      ensures headingErrorIntTime == c.t0
      ensures reset <==> enabled && !old(lastEnabled)
      ensures lastEnabled == enabled
      ensures headingErrorInt ==
        if reset then 0.0
        else IntegralStep(old(headingErrorInt), headingError, ClampedDt(c.t0, old(headingErrorIntTime)))
    {
      AdjustMode(c.bestMode);
      heading := c.pilotHeading;
      ComputeHeadingError(c.t0);

      // a rising edge of `enabled` zeroes the integral and is reported as `reset`
      reset := false;
      if enabled != lastEnabled {
        lastEnabled := enabled;
        if enabled {
          headingErrorInt := 0.0;
          reset := true;
        }
      }
    }

    /** `iteration`: one cycle of the control loop, from the IMU read to the
        sleep that ends the period. */
    method Iteration(c: Cycle) returns (r: Report)
      requires Valid()
      requires c.rate > 0.0
      modifies this`lastTime, this`lastHeading, this`lastHeadingOff, this`compassChange, this`headingCommand
      modifies this`gpsSpeed, this`windSpeed, this`windDirection, this`mode, this`heading
      modifies this`lastMode, this`headingError, this`headingErrorInt, this`headingErrorIntTime
      modifies this`enabled, this`lastEnabled, this`forceEngaged
      modifies gpsOffset, windOffset, trueWindOffset
      ensures Valid()
      // the IMU read and its retries
      ensures 1 <= r.imuAttempts <= MaxImuTries
      ensures r.imu == Attempt(c.outcomes, r.imuAttempts - 1)
      ensures forall i :: 0 <= i < r.imuAttempts - 1 ==> Attempt(c.outcomes, i).None?
      ensures r.imu.None? ==> r.imuAttempts == MaxImuTries
      ensures r.slack == RetrySlack(Failures(r.imu, r.imuAttempts), 1.0 / c.rate)
      // the compensation
      ensures lastTime == c.t0
      ensures lastHeading == (if r.imu.Some? then r.imu.value.heading else old(lastHeading))
      ensures lastHeadingOff == c.headingOff
      ensures compassChange
        == CalibrationJump(r.imu, old(lastHeading), c.headingRate, RateInterval(c.t0, old(lastTime)))
         + AlignmentJump(old(lastHeadingOff), c.headingOff)
      // the mode, the command and the error
      ensures mode == c.bestMode(preferredMode)
      ensures lastMode == Some(mode)
      ensures heading == c.pilotHeading
      ensures headingCommand ==
        if old(lastMode) != Some(mode) then SwitchCommand(mode, heading, old(headingError))
        else CompensatedCommand(old(mode), old(headingCommand), compassChange)
      ensures headingError == ErrorOf(mode, heading, headingCommand)
      ensures old(lastMode) != Some(mode) ==> headingError == old(headingError)
      ensures headingErrorIntTime == c.t0
      // the integral, its reset and the hand-over to the pilot and the servo
      ensures enabled == c.enabled && lastEnabled == c.enabled
      ensures r.reset <==> c.enabled && !old(lastEnabled)
      ensures headingErrorInt ==
        if r.reset then 0.0
        else IntegralStep(old(headingErrorInt), headingError, ClampedDt(c.t0, old(headingErrorIntTime)))
      ensures r.pilotProcess == if c.tackClaims then None else Some(r.reset)
      ensures forceEngaged == c.enabled
      ensures r.watchdogFed == watchdog
      // the sleep to the end of the period
      ensures forall i :: 0 <= i < |r.pauses| ==> 0.0 < r.pauses[i] < 1.0 / c.rate
      ensures |r.pauses| <= 1
      ensures r.pauses == [] <==> PauseAt(1.0 / c.rate, c.t0, c.t0 + c.busy + r.slack, r.slack).None?
      ensures r.pauses == [] ==> r.finish == c.t0 + c.busy + r.slack
      ensures r.pauses != [] ==> r.finish == c.t0 + 1.0 / c.rate + r.slack
    {
      var period := 1.0 / c.rate;

      // the server delivers the clients' writes, among them `enabled`
      enabled := c.enabled;

      var data, attempts, slack := ReadImu(c.outcomes, period);
      Sense(c, data);
      var reset := Steer(c);

      // `force_engaged` follows `enabled`
      forceEngaged := enabled;

      // the tack maneuver, when it claims the cycle, replaces the pilot
      var pilotProcess := if c.tackClaims then None else Some(reset);

      var pauses, finish := SleepRemainder(period, c.t0, c.t0 + c.busy + slack, slack);
      r := Report(data, attempts, slack, reset, pilotProcess, watchdog, pauses, finish);
    }

    /** The `cleanup` handler: ignore further deliveries of the signal, signal
        every child that holds a process, popping the list from its end, and
        ask for re-raising unless called at normal exit. */
    method Cleanup(reason: Reason) returns (terminated: seq<int>, reraise: bool)
      modifies this`childProcesses, this`ignoredSignals
      ensures childProcesses == []
      ensures terminated == TermOrder(old(childProcesses))
      ensures ignoredSignals == if reason.Signal? then old(ignoredSignals) + {reason.number} else old(ignoredSignals)
      ensures reraise <==> reason != AtExit
    {
      if reason != AtExit {
        ignoredSignals := ignoredSignals + {reason.number};
      }

      terminated := [];
      ghost var all := TermOrder(childProcesses);
      ghost var ignored := ignoredSignals;
      while childProcesses != []
        invariant terminated + TermOrder(childProcesses) == all
        invariant ignoredSignals == ignored
        decreases |childProcesses|
      {
        var child := childProcesses[|childProcesses| - 1];
        var signalled := if child.process.Some? then [child.process.value] else [];
        assert TermOrder(childProcesses) == signalled + TermOrder(childProcesses[..|childProcesses| - 1]);
        assert terminated + signalled + TermOrder(childProcesses[..|childProcesses| - 1]) == all;
        childProcesses := childProcesses[..|childProcesses| - 1];
        if child.process.Some? {
          terminated := terminated + [child.process.value];
        }
      }
      reraise := reason != AtExit;
    }
  }
}
