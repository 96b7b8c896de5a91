/** Values shared by the Fortius controller, its driver and its session host.

    The numeric codes behind FT_*, RT_MODE_* and CALIBRATION_STATE_* live in
    headers that are not part of this model; here each named code is a
    distinct constructor, and codes the controller only passes through are
    kept as `Other...(code)`. */
module FortiusTypes {

  /** One telemetry sample, as one call of the driver's getTelemetry reports it. */
  datatype Sample = Sample(
    power: real,
    resistance: real,   // also the calibration reading
    heartRate: real,
    cadence: real,
    speed: real,
    distance: real,     // polled, never relayed
    buttons: bv32,      // bitmask of FtPlus, FtMinus, FtEnter, FtCancel
    steering: int,      // polled, never relayed
    status: int)        // polled, never relayed

  /** Button bits of the Fortius head unit: four distinct single bits. */
  const FtEnter: bv32 := 0x01
  const FtMinus: bv32 := 0x02
  const FtPlus: bv32 := 0x04
  const FtCancel: bv32 := 0x08

  /** The modes the application asks for (RT_MODE_*). */
  datatype RealtimeMode = RtModeErgo | RtModeSpin | RtModeOther(code: int)

  /** The modes the Fortius driver accepts (FT_IDLE, FT_ERGOMODE, FT_SSMODE, FT_CALIBRATE). */
  datatype FortiusMode = FtIdle | FtErgoMode | FtSsMode | FtCalibrate

  /** An unsigned 8-bit state code, as setCalibrationState takes it. */
  type StateCode = x: nat | x < 256

  /** The controller's calibration state (CALIBRATION_STATE_*); any other
      8-bit code is stored as it is given. */
  datatype CalibrationState =
    | Idle
    | Pending
    | Starting
    | Started
    | Success
    | OtherState(code: StateCode)

  /** Calibration methods a controller can announce (CALIBRATION_TYPE_*). */
  datatype CalibrationType = ZeroOffset | OtherCalibrationType(code: nat)

  /** Every call the controller makes into the driver that changes it. */
  datatype DeviceCommand =
    | DevStart
    | DevRestart
    | DevPause
    | DevStop
    | DevFind
    | DevSetLoad(load: real)
    | DevSetGradient(grade: real, resistanceWatts: real)
    | DevSetMode(mode: FortiusMode)
    | DevSetWeight(weight: real)
    | DevSetCalibrationValue(value: real)

  /** Every call the controller makes into the session host (the training
      sidebar), including the notification signal it emits. */
  datatype HostAction =
    | Notify(message: string, severity: int)
    | Stop(code: int)
    | Higher
    | Lower
    | NewLap
}
