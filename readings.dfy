/** What the autopilot consumes from its sensor collaborators each cycle. */
module Readings {
  /** A successful `boatimu.read()`: the heading and whether the compass
      calibration model was just replaced ('compass_calibration_updated' present). */
  datatype ImuRead = ImuRead(heading: real, calibrationUpdated: bool)

  /** The GPS sensor when its source is not 'none'. */
  datatype GpsFix = GpsFix(speed: real, track: real)

  /** The wind sensor when its source is not 'none'. */
  datatype WindFix = WindFix(speed: real, direction: real)
}
