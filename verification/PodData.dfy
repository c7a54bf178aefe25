/** The records that the pod's threads exchange, as far as the state machine reads them. */
module PodData {

  /** data::State, plus the state machine's `Off`, which is never published. */
  datatype PodState =
    | Idle
    | PreCalibrating
    | Calibrating
    | PreReady
    | Ready
    | Accelerating
    | Cruising
    | PreBraking
    | NominalBraking
    | FailurePreBraking
    | FailureBraking
    | FailureStopped
    | Finished
    | Invalid
    | Off

  datatype ModuleStatus = CriticalFailure | Start | Init | ReadyStatus

  const RUN_LENGTH := 1250.0
  const MAXIMUM_VELOCITY := 100.0
  const BRAKING_BUFFER := 20.0

  datatype Navigation = Navigation(
    status: ModuleStatus, displacement: real, velocity: real, acceleration: real,
    emergencyBrakingDistance: real, brakingDistance: real)

  datatype Telemetry = Telemetry(
    status: ModuleStatus, calibrateCommand: bool, launchCommand: bool, shutdownCommand: bool,
    emergencyStopCommand: bool)

  datatype Sensors = Sensors(status: ModuleStatus, highPowerOff: bool)

  /** One reading of the six registers that a poll fetches. */
  datatype Registers = Registers(
    brakes: ModuleStatus, nav: Navigation, batteries: ModuleStatus,
    telemetry: Telemetry, sensors: Sensors, motors: ModuleStatus)
}
