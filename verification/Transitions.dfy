/** The guards of the pod's state machine. */
module Transitions {
  import opened PodData

  /** Order of the status enumeration: critical failure below start, init and ready. */
  function StatusRank(s: ModuleStatus): nat {
    match s
    case CriticalFailure => 0
    case Start => 1
    case Init => 2
    case ReadyStatus => 3
  }

  predicate Emergency(r: Registers) {
    if r.telemetry.emergencyStopCommand then true
    else if r.nav.status == CriticalFailure then true
    else if r.telemetry.status == CriticalFailure then true
    else if r.motors == CriticalFailure then true
    else if r.brakes == CriticalFailure then true
    else if r.batteries == CriticalFailure then true
    else r.sensors.status == CriticalFailure
  }

  predicate ModulesInitialised(r: Registers) {
    && StatusRank(r.brakes) >= StatusRank(Init)
    && StatusRank(r.nav.status) >= StatusRank(Init)
    && StatusRank(r.batteries) >= StatusRank(Init)
    && StatusRank(r.telemetry.status) >= StatusRank(Init)
    && StatusRank(r.sensors.status) >= StatusRank(Init)
    && StatusRank(r.motors) >= StatusRank(Init)
  }

  predicate ModulesReady(r: Registers) {
    && r.brakes == ReadyStatus
    && r.nav.status == ReadyStatus
    && r.batteries == ReadyStatus
    && r.telemetry.status == ReadyStatus
    && r.sensors.status == ReadyStatus
    && r.motors == ReadyStatus
  }

  predicate HighPowerOff(s: Sensors) {
    s.highPowerOff
  }

  predicate EnteredBrakingZone(n: Navigation) {
    var remaining := RUN_LENGTH - n.displacement;
    var required := n.brakingDistance + BRAKING_BUFFER;
    !(remaining > required)
  }

  predicate ReachedMaxVelocity(n: Navigation) {
    !(n.velocity < MAXIMUM_VELOCITY)
  }

  predicate PodStopped(n: Navigation) {
    !(n.velocity > 0.0)
  }

  datatype Option<T> = None | Some(value: T)

  /** The state that a poll of `r` in state `s` moves to, if any. */
  function Next(s: PodState, r: Registers): Option<PodState> {
    match s
    case Idle =>
      if Emergency(r) then Some(FailureStopped) else if ModulesInitialised(r) then Some(PreCalibrating) else None
    case PreCalibrating =>
      if Emergency(r) then Some(FailureStopped) else if r.telemetry.calibrateCommand then Some(Calibrating) else None
    case Calibrating =>
      if Emergency(r) then Some(FailureStopped) else if ModulesReady(r) then Some(PreReady) else None
    case PreReady =>
      if Emergency(r) then Some(FailureStopped) else if !HighPowerOff(r.sensors) then Some(Ready) else None
    case Ready =>
      if Emergency(r) then Some(FailureStopped) else if r.telemetry.launchCommand then Some(Accelerating) else None
    case Accelerating =>
      if Emergency(r) then Some(FailurePreBraking)
      else if EnteredBrakingZone(r.nav) then Some(PreBraking)
      else if ReachedMaxVelocity(r.nav) then Some(Cruising)
      else None
    case Cruising =>
      if Emergency(r) then Some(FailurePreBraking) else if EnteredBrakingZone(r.nav) then Some(PreBraking) else None
    case PreBraking =>
      if Emergency(r) then Some(FailurePreBraking) else if HighPowerOff(r.sensors) then Some(NominalBraking) else None
    case NominalBraking =>
      if Emergency(r) then Some(FailureBraking) else if PodStopped(r.nav) then Some(Finished) else None
    case Finished => if r.telemetry.shutdownCommand then Some(Off) else None
    case FailurePreBraking => if HighPowerOff(r.sensors) then Some(FailureBraking) else None
    case FailureBraking => if PodStopped(r.nav) then Some(FailureStopped) else None
    case FailureStopped => if r.telemetry.shutdownCommand then Some(Off) else None
    case Invalid => None
    case Off => None
  }
}
