/** The state machine thread and what holds over all its runs. */
module StateMachine {
  import opened PodData
  import opened Transitions

  /** The thread: its current state, the module data cached by the last poll, the
      state it has published, and whether the system still runs. */
  class Main {
    var currentState: PodState
    var cache: Registers
    var published: PodState
    var running: bool

    ghost predicate Valid()
      reads this
    {
      (running <==> currentState != Off) && (running ==> published == currentState)
    }

    constructor (initial: Registers)
      ensures Valid() && running && currentState == Idle
    {
      currentState, published, running := Idle, Idle, true;
      cache := initial;
    }

    method Enter()
      modifies this`published, this`running
      ensures currentState == Off ==> !running && published == old(published)
      ensures currentState != Off ==> running == old(running) && published == currentState
    {
      if currentState == Off {
        running := false;
      } else {
        published := currentState;
      }
    }

    /** `r` is what the getters return, each under its own lock, at arbitrary moments. */
    method CheckTransition(r: Registers) returns (next: Option<PodState>)
      modifies this`cache
      ensures next == Next(currentState, r)
      ensures currentState in {Idle, PreCalibrating, Calibrating, PreReady, Ready,
                               Accelerating, Cruising, PreBraking, NominalBraking} ==>
        (next.Some? && next.value in {FailurePreBraking, FailureBraking, FailureStopped}
         <==> r.telemetry.emergencyStopCommand
              || CriticalFailure in {r.nav.status, r.telemetry.status, r.motors, r.brakes, r.batteries,
                                     r.sensors.status})
    {
      match currentState {
        case Finished | FailureStopped =>
          cache := cache.(telemetry := r.telemetry);
          return if cache.telemetry.shutdownCommand then Some(Off) else None;
        case FailureBraking =>
          cache := cache.(nav := r.nav);
          return if PodStopped(cache.nav) then Some(FailureStopped) else None;
        case Off | Invalid =>
          return None;
        case _ =>
          cache := r;
      }
      if currentState == FailurePreBraking {
        return if HighPowerOff(cache.sensors) then Some(FailureBraking) else None;
      }
      var emergency := Emergency(cache);
      if emergency {
        match currentState {
          case Idle | PreCalibrating | Calibrating | PreReady | Ready => return Some(FailureStopped);
          case NominalBraking => return Some(FailureBraking);
          case _ => return Some(FailurePreBraking);
        }
      }
      match currentState {
        case Idle => next := if ModulesInitialised(cache) then Some(PreCalibrating) else None;
        case PreCalibrating => next := if cache.telemetry.calibrateCommand then Some(Calibrating) else None;
        case Calibrating => next := if ModulesReady(cache) then Some(PreReady) else None;
        case PreReady => next := if !HighPowerOff(cache.sensors) then Some(Ready) else None;
        case Ready => next := if cache.telemetry.launchCommand then Some(Accelerating) else None;
        case Accelerating =>
          if EnteredBrakingZone(cache.nav) {
            return Some(PreBraking);
          }
          next := if ReachedMaxVelocity(cache.nav) then Some(Cruising) else None;
        case Cruising => next := if EnteredBrakingZone(cache.nav) then Some(PreBraking) else None;
        case PreBraking => next := if HighPowerOff(cache.sensors) then Some(NominalBraking) else None;
        case NominalBraking => next := if PodStopped(cache.nav) then Some(Finished) else None;
      }
    }

    /** One pass of the loop. */
    method Poll(r: Registers)
      requires Valid() && running
      modifies this
      ensures Valid()
      ensures currentState == After(old(currentState), r)
      ensures published == if currentState == Off then old(published) else currentState
    {
      var newState := CheckTransition(r);
      if newState.Some? {
        currentState := newState.value;
        Enter();
      }
    }
  }

  function After(s: PodState, r: Registers): PodState {
    match Next(s, r)
    case None => s
    case Some(t) => t
  }

  /** The state after polls `rs`, oldest first. */
  function State(rs: seq<Registers>): PodState {
    if rs == [] then Idle else After(State(rs[..|rs| - 1]), rs[|rs| - 1])
  }

  // ------------------------------------------------------------ termination

  /** Position in the state enumeration, with Off on top. */
  function Ordinal(s: PodState): nat {
    match s
    case Idle => 0 case PreCalibrating => 1 case Calibrating => 2 case PreReady => 3 case Ready => 4
    case Accelerating => 5 case Cruising => 6 case PreBraking => 7 case NominalBraking => 8
    case FailurePreBraking => 9 case FailureBraking => 10 case FailureStopped => 11 case Finished => 12
    case Invalid => 13 case Off => 14
  }

  /** How many transitions can still follow, at most. */
  function Remaining(s: PodState): nat {
    match s
    case Idle => 11 case PreCalibrating => 10 case Calibrating => 9 case PreReady => 8 case Ready => 7
    case Accelerating => 6 case Cruising => 5 case PreBraking => 4 case NominalBraking => 3
    case FailurePreBraking => 3 case FailureBraking => 2 case FailureStopped => 1 case Finished => 1
    case Invalid => 0 case Off => 0
  }

  /** Transitions made by the polls. */
  function TransitionCount(rs: seq<Registers>): nat {
    if rs == [] then 0
    else
      var init := rs[..|rs| - 1];
      TransitionCount(init) + if State(rs) != State(init) then 1 else 0
  }

  /** A transition strictly raises the ordinal. */
  lemma OrdinalRises(s: PodState, r: Registers)
    ensures Next(s, r).Some? ==> Ordinal(Next(s, r).value) > Ordinal(s)
    ensures Next(s, r).Some? ==> Remaining(Next(s, r).value) < Remaining(s)
  {
  }

  /** Whatever the data stream, a run makes at most 11 transitions; the ordinal never falls. */
  lemma {:induction false} AtMostElevenTransitions(rs: seq<Registers>)
    ensures TransitionCount(rs) + Remaining(State(rs)) <= 11
    ensures forall k :: 0 <= k <= |rs| ==> Ordinal(State(rs[..k])) <= Ordinal(State(rs))
  {
    if rs != [] {
      var init := rs[..|rs| - 1];
      AtMostElevenTransitions(init);
      OrdinalRises(State(init), rs[|rs| - 1]);
      forall k | 0 <= k <= |rs| ensures Ordinal(State(rs[..k])) <= Ordinal(State(rs)) {
        if k < |rs| {
          assert rs[..k] == init[..k];
        } else {
          assert rs[..k] == rs;
        }
      }
    }
  }

  // ---------------------------------------------------------- failure branch

  predicate IsFailure(s: PodState) {
    s in {FailurePreBraking, FailureBraking, FailureStopped}
  }

  /** The nine states in which an emergency is looked for. */
  predicate Watched(s: PodState) {
    s in {Idle, PreCalibrating, Calibrating, PreReady, Ready, Accelerating, Cruising, PreBraking, NominalBraking}
  }

  /** The run is in state `s` now or was at some time. */
  predicate Visits(rs: seq<Registers>, s: PodState) {
    State(rs) == s || (rs != [] && Visits(rs[..|rs| - 1], s))
  }

  predicate VisitsFailure(rs: seq<Registers>) {
    IsFailure(State(rs)) || (rs != [] && VisitsFailure(rs[..|rs| - 1]))
  }

  /** Some poll in a watched state saw an emergency. */
  predicate SawEmergency(rs: seq<Registers>) {
    rs != [] && (SawEmergency(rs[..|rs| - 1]) || (Watched(State(rs[..|rs| - 1])) && Emergency(rs[|rs| - 1])))
  }

  /** Where a run stands, told from the emergencies it has seen. */
  lemma {:induction false} BranchTaken(rs: seq<Registers>)
    ensures SawEmergency(rs) ==> IsFailure(State(rs)) || State(rs) == Off
    ensures SawEmergency(rs) <==> VisitsFailure(rs)
    ensures VisitsFailure(rs) ==> !Visits(rs, Finished)
    ensures Visits(rs, Finished) ==> State(rs) in {Finished, Off}
    ensures State(rs) == Off ==> VisitsFailure(rs) || Visits(rs, Finished)
  {
    if rs != [] {
      hide After, IsFailure, Watched, Emergency;
      BranchTaken(rs[..|rs| - 1]);
      BranchStep(State(rs[..|rs| - 1]), rs[|rs| - 1]);
    } else {
      assert State(rs) == Idle;
    }
  }

  /** A failure state is entered from a watched one on an emergency, and left only for Off. */
  lemma BranchStep(s: PodState, r: Registers)
    ensures var t := After(s, r);
      && (Watched(s) && Emergency(r) ==> IsFailure(t))
      && (IsFailure(s) ==> IsFailure(t) || t == Off)
      && (IsFailure(t) ==> IsFailure(s) || (Watched(s) && Emergency(r)))
      && (t == Off ==> s == Off || IsFailure(s) || s == Finished)
      && (s == Off ==> t == Off)
      && (s == Finished ==> t in {Finished, Off})
      && !(IsFailure(s) && s == Finished)
      && !(Watched(s) && (IsFailure(s) || s == Off))
      && !(IsFailure(t) && (t == Finished || t == Off))
  {
  }

  /** No stop command, and no module in critical failure. */
  predicate Quiet(r: Registers) {
    && !r.telemetry.emergencyStopCommand
    && CriticalFailure !in {r.nav.status, r.telemetry.status, r.motors, r.brakes, r.batteries, r.sensors.status}
  }

  lemma QuietMeansNoEmergency(r: Registers)
    ensures Quiet(r) <==> !Emergency(r)
  {
  }

  lemma {:induction false} FailureVisited(rs: seq<Registers>) returns (k: nat)
    requires VisitsFailure(rs)
    ensures k <= |rs| && IsFailure(State(rs[..k]))
  {
    if IsFailure(State(rs)) {
      k := |rs|;
      assert rs[..k] == rs;
    } else {
      k := FailureVisited(rs[..|rs| - 1]);
      assert rs[..|rs| - 1][..k] == rs[..k];
    }
  }

  lemma {:induction false} FailureRemains(rs: seq<Registers>, k: nat)
    requires k <= |rs| && IsFailure(State(rs[..k]))
    ensures VisitsFailure(rs)
    decreases |rs|
  {
    if k == |rs| {
      assert rs[..k] == rs;
    } else {
      assert rs[..|rs| - 1][..k] == rs[..k];
      FailureRemains(rs[..|rs| - 1], k);
    }
  }

  lemma {:induction false} EmergencySeen(rs: seq<Registers>) returns (k: nat)
    requires SawEmergency(rs)
    ensures k < |rs| && Watched(State(rs[..k])) && !Quiet(rs[k])
  {
    hide Emergency, Quiet, Watched, State;
    QuietMeansNoEmergency(rs[|rs| - 1]);
    if SawEmergency(rs[..|rs| - 1]) {
      k := EmergencySeen(rs[..|rs| - 1]);
      assert rs[..|rs| - 1][..k] == rs[..k];
    } else {
      k := |rs| - 1;
    }
  }

  lemma {:induction false} EmergencyRemains(rs: seq<Registers>, k: nat)
    requires k < |rs| && Watched(State(rs[..k])) && !Quiet(rs[k])
    ensures SawEmergency(rs)
    decreases |rs|
  {
    hide Emergency, Quiet, Watched, State;
    if k == |rs| - 1 {
      QuietMeansNoEmergency(rs[k]);
    } else {
      assert rs[..|rs| - 1][..k] == rs[..k];
      EmergencyRemains(rs[..|rs| - 1], k);
    }
  }

  /** A run visits a failure state iff some poll, in a state up to the braking, saw the stop
      command or a module in critical failure, and such a run never visits Finished. */
  lemma FailureIffEmergency(rs: seq<Registers>)
    ensures (exists k :: 0 <= k <= |rs| && State(rs[..k]) in {FailurePreBraking, FailureBraking, FailureStopped})
       <==> exists k :: 0 <= k < |rs|
              && State(rs[..k]) in {Idle, PreCalibrating, Calibrating, PreReady, Ready,
                                    Accelerating, Cruising, PreBraking, NominalBraking}
              && (|| rs[k].telemetry.emergencyStopCommand
                  || rs[k].nav.status == CriticalFailure || rs[k].telemetry.status == CriticalFailure
                  || rs[k].motors == CriticalFailure || rs[k].brakes == CriticalFailure
                  || rs[k].batteries == CriticalFailure || rs[k].sensors.status == CriticalFailure)
    ensures (exists k :: 0 <= k <= |rs| && State(rs[..k]) in {FailurePreBraking, FailureBraking, FailureStopped})
        ==> !Visits(rs, Finished)
  {
    hide State, VisitsFailure, SawEmergency;
    BranchTaken(rs);
    if k :| 0 <= k <= |rs| && IsFailure(State(rs[..k])) {
      FailureRemains(rs, k);
      var j := EmergencySeen(rs);
    }
    if k :| 0 <= k < |rs| && Watched(State(rs[..k])) && !Quiet(rs[k]) {
      EmergencyRemains(rs, k);
      var j := FailureVisited(rs);
    }
  }

  /** Which polls enter which failure state. */
  lemma FailureEntered(rs: seq<Registers>, r: Registers)
    ensures State(rs + [r]) == FailurePreBraking && State(rs) != FailurePreBraking
       <==> State(rs) in {Accelerating, Cruising, PreBraking} && !Quiet(r)
    ensures State(rs + [r]) == FailureBraking && State(rs) != FailureBraking
       <==> || (State(rs) == NominalBraking && !Quiet(r))
            || (State(rs) == FailurePreBraking && r.sensors.highPowerOff)
    ensures State(rs + [r]) == FailureStopped && State(rs) != FailureStopped
       <==> || (State(rs) in {Idle, PreCalibrating, Calibrating, PreReady, Ready} && !Quiet(r))
            || (State(rs) == FailureBraking && r.nav.velocity <= 0.0)
  {
    assert (rs + [r])[..|rs|] == rs;
    QuietMeansNoEmergency(r);
    hide Emergency, Quiet;
  }

  lemma {:induction false} ShutDownAt(rs: seq<Registers>) returns (k: nat)
    requires State(rs) == Off
    ensures k < |rs| && State(rs[..k]) in {Finished, FailureStopped} && rs[k].telemetry.shutdownCommand
  {
    hide Emergency, ModulesInitialised, ModulesReady;
    if State(rs[..|rs| - 1]) == Off {
      k := ShutDownAt(rs[..|rs| - 1]);
      assert rs[..|rs| - 1][..k] == rs[..k];
    } else {
      k := |rs| - 1;
    }
  }

  lemma {:induction false} StaysOff(rs: seq<Registers>, k: nat)
    requires k < |rs| && State(rs[..k]) in {Finished, FailureStopped} && rs[k].telemetry.shutdownCommand
    ensures State(rs) == Off
    decreases |rs|
  {
    if k < |rs| - 1 {
      assert rs[..|rs| - 1][..k] == rs[..k];
      StaysOff(rs[..|rs| - 1], k);
    }
  }

  /** The system is off exactly after a poll in a final state that saw the shutdown command. */
  lemma OffExactly(rs: seq<Registers>)
    ensures State(rs) == Off
       <==> exists k :: 0 <= k < |rs| && State(rs[..k]) in {Finished, FailureStopped}
              && rs[k].telemetry.shutdownCommand
  {
    hide State;
    if State(rs) == Off {
      var k := ShutDownAt(rs);
    }
    if k :| 0 <= k < |rs| && State(rs[..k]) in {Finished, FailureStopped} && rs[k].telemetry.shutdownCommand {
      StaysOff(rs, k);
    }
  }

  // -------------------------------------------------------- launch evidence

  /** What a poll must see for the `i`-th step of a nominal run: modules initialised, calibrate command,
      modules ready, high power on, launch command, braking zone, high power off, pod at rest. */
  predicate Evidence(i: nat, r: Registers) {
    var statuses := {r.brakes, r.nav.status, r.batteries, r.telemetry.status, r.sensors.status, r.motors};
    match i
    case 0 => statuses <= {Init, ReadyStatus}
    case 1 => r.telemetry.calibrateCommand
    case 2 => statuses == {ReadyStatus}
    case 3 => !r.sensors.highPowerOff
    case 4 => r.telemetry.launchCommand
    case 5 => r.nav.displacement + r.nav.brakingDistance + 20.0 >= 1250.0
    case 6 => r.sensors.highPowerOff
    case _ => r.nav.velocity <= 0.0
  }

  /** How many of those steps lie behind a nominal run in state `s`. */
  function StepsMade(s: PodState): nat {
    match s
    case Idle => 0
    case PreCalibrating => 1
    case Calibrating => 2
    case PreReady => 3
    case Ready => 4
    case Accelerating | Cruising => 5
    case PreBraking => 6
    case NominalBraking => 7
    case _ => 8
  }

  /** Polls `ks` of the run, in order, saw the evidence of the first steps, and none up to the
      last of them saw an emergency. */
  ghost predicate Seen(rs: seq<Registers>, ks: seq<nat>) {
    && |ks| <= 8
    && (forall i, j :: 0 <= i < j < |ks| ==> ks[i] < ks[j])
    && (forall i :: 0 <= i < |ks| ==> ks[i] < |rs| && Evidence(i, rs[ks[i]]))
    && (ks != [] ==> forall k :: 0 <= k <= ks[|ks| - 1] ==> Quiet(rs[k]))
  }

  /** The poll that made the run enter state `s` for the first time. */
  lemma {:induction false} EntryPoll(rs: seq<Registers>, s: PodState) returns (k: nat)
    requires State(rs) == s && s != Idle
    ensures k < |rs| && State(rs[..k]) != s && Next(State(rs[..k]), rs[k]) == Some(s)
  {
    var init := rs[..|rs| - 1];
    if State(init) == s {
      k := EntryPoll(init, s);
      assert init[..k] == rs[..k];
    } else {
      k := |rs| - 1;
    }
  }

  lemma PrefixOfPrefix(rs: seq<Registers>, k: nat, j: nat)
    requires j <= k <= |rs|
    ensures rs[..k][..j] == rs[..j]
  {
  }

  /** Accelerating is only reached after, in order, polls that saw all modules
      initialised, the calibrate command, all modules ready, high power on, and
      the launch command, each in the state that waits for it. */
  lemma LaunchNeedsEvidence(rs: seq<Registers>) returns (ks: seq<nat>)
    requires State(rs) == Accelerating
    ensures |ks| == 5 && Seen(rs, ks)
    ensures forall i :: 0 <= i < 5 ==> State(rs[..ks[i]]) == Nominal(i)
  {
    hide State, Evidence, Quiet, StepsMade;
    var k4 := EntryFrom(rs, Ready, Accelerating);
    var k3 := EntryFrom(rs[..k4], PreReady, Ready);
    PrefixOfPrefix(rs, k4, k3);
    var k2 := EntryFrom(rs[..k3], Calibrating, PreReady);
    PrefixOfPrefix(rs, k3, k2);
    var k1 := EntryFrom(rs[..k2], PreCalibrating, Calibrating);
    PrefixOfPrefix(rs, k2, k1);
    var k0 := EntryFrom(rs[..k1], Idle, PreCalibrating);
    PrefixOfPrefix(rs, k1, k0);
    QuietBefore(rs);
    hide Nominal;
    ks := [k0, k1, k2, k3, k4];
  }

  /** On the way to the launch each state is entered from the one before it. */
  lemma EntryFrom(rs: seq<Registers>, from: PodState, s: PodState) returns (k: nat)
    requires State(rs) == s
    requires (from, s) in {(Idle, PreCalibrating), (PreCalibrating, Calibrating), (Calibrating, PreReady),
                           (PreReady, Ready), (Ready, Accelerating)}
    ensures k < |rs| && State(rs[..k]) == from && Next(from, rs[k]) == Some(s)
    ensures Nominal(StepsMade(from)) == from && Evidence(StepsMade(from), rs[k])
  {
    k := EntryPoll(rs, s);
  }

  /** The state after `n` steps of a nominal run; Cruising may lie between 5 and 6. */
  function Nominal(n: nat): PodState {
    match n
    case 0 => Idle
    case 1 => PreCalibrating
    case 2 => Calibrating
    case 3 => PreReady
    case 4 => Ready
    case 5 => Accelerating
    case 6 => PreBraking
    case 7 => NominalBraking
    case _ => Finished
  }

  /** A run up to the braking has seen no emergency. */
  lemma QuietBefore(rs: seq<Registers>)
    requires Watched(State(rs))
    ensures !VisitsFailure(rs) && forall k :: 0 <= k < |rs| ==> Quiet(rs[k])
  {
    hide State, Quiet;
    BranchTaken(rs);
    forall k | 0 <= k < |rs| ensures Quiet(rs[k]) {
      if !Quiet(rs[k]) {
        EarlierWatched(rs, k);
        EmergencyRemains(rs, k);
      }
    }
  }

  lemma EarlierWatched(rs: seq<Registers>, k: nat)
    requires Watched(State(rs)) && k <= |rs|
    ensures Watched(State(rs[..k]))
  {
    hide State;
    AtMostElevenTransitions(rs);
    assert Ordinal(State(rs[..k])) <= Ordinal(State(rs));
  }

  lemma {:induction false} CruisedAfterLaunch(rs: seq<Registers>)
    requires State(rs) == Cruising
    ensures Visits(rs, Accelerating)
  {
    if State(rs[..|rs| - 1]) == Cruising {
      CruisedAfterLaunch(rs[..|rs| - 1]);
    }
  }

  /** One poll of a run without emergency: a step is made exactly on its evidence. */
  lemma StepOnEvidence(s: PodState, r: Registers, i: nat)
    requires !IsFailure(s) && s != Invalid && Quiet(r)
    ensures !IsFailure(After(s, r)) && After(s, r) != Invalid
    ensures StepsMade(s) <= StepsMade(After(s, r)) <= StepsMade(s) + 1
    ensures StepsMade(s) == i < 8 ==> (StepsMade(After(s, r)) == i + 1 <==> Evidence(i, r))
    ensures StepsMade(s) == i < 8 && Evidence(i, r) ==> After(s, r) == Nominal(i + 1)
  {
    QuietMeansNoEmergency(r);
    hide Quiet, Emergency;
  }
  /** Once launched, the states before the launch are never seen again. */
  lemma {:induction false} LaunchedForGood(rs: seq<Registers>)
    requires Visits(rs, Accelerating)
    ensures Ordinal(State(rs)) >= Ordinal(Accelerating)
  {
    if State(rs) != Accelerating {
      LaunchedForGood(rs[..|rs| - 1]);
      OrdinalRises(State(rs[..|rs| - 1]), rs[|rs| - 1]);
    }
  }

  /** Stopping evidence: Finished is only entered from NominalBraking, and after a
      launch FailureStopped only from FailureBraking, on a poll that saw velocity <= 0. */
  lemma StopNeedsEvidence(rs: seq<Registers>, r: Registers)
    ensures State(rs + [r]) == Finished && State(rs) != Finished
            ==> State(rs) == NominalBraking && r.nav.velocity <= 0.0 && Quiet(r)
    ensures State(rs + [r]) == FailureStopped && State(rs) != FailureStopped && Visits(rs, Accelerating)
            ==> State(rs) == FailureBraking && r.nav.velocity <= 0.0
  {
    assert (rs + [r])[..|rs|] == rs;
    if Visits(rs, Accelerating) {
      LaunchedForGood(rs);
    }
  }

  // -------------------------------------------------------- braking evidence

  predicate Driven(s: PodState) {
    s in {Accelerating, Cruising}
  }

  /** A driven run that is driven again later has not met the braking zone in between. */
  lemma DrivenOutsideZone(rs: seq<Registers>, k: nat)
    requires k < |rs| && Driven(State(rs[..k])) && Driven(State(rs))
    ensures !EnteredBrakingZone(rs[k].nav) && !Emergency(rs[k])
  {
    hide Emergency, EnteredBrakingZone;
    PrefixOfPrefix(rs, k + 1, k);
    AtMostElevenTransitions(rs);
    assert Ordinal(State(rs[..k + 1])) <= Ordinal(State(rs));
    assert State(rs[..k + 1]) == After(State(rs[..k]), rs[k]);
  }

  /** The brakes of a nominal run engage only after the first driven poll in the braking
      zone and then a poll in PreBraking that saw high power off, both without emergency. */
  lemma BrakingNeedsEvidence(rs: seq<Registers>) returns (k1: nat, k2: nat)
    requires State(rs) == NominalBraking
    ensures k1 < k2 < |rs|
    ensures Driven(State(rs[..k1])) && rs[k1].nav.displacement + rs[k1].nav.brakingDistance + 20.0 >= 1250.0
    ensures State(rs[..k2]) == PreBraking && rs[k2].sensors.highPowerOff && Quiet(rs[k1]) && Quiet(rs[k2])
    ensures forall k :: 0 <= k < k1 && Driven(State(rs[..k])) ==>
      rs[k].nav.displacement + rs[k].nav.brakingDistance + 20.0 < 1250.0
  {
    hide State, Emergency;
    k2 := EntryPoll(rs, NominalBraking);
    k1 := EntryPoll(rs[..k2], PreBraking);
    PrefixOfPrefix(rs, k2, k1);
    QuietMeansNoEmergency(rs[k1]);
    QuietMeansNoEmergency(rs[k2]);
    forall k | 0 <= k < k1 && Driven(State(rs[..k])) ensures !EnteredBrakingZone(rs[k].nav) {
      PrefixOfPrefix(rs, k1, k);
      DrivenOutsideZone(rs[..k1], k);
    }
  }

  /** A run starts to cruise exactly on a quiet poll that saw full speed outside the braking zone. */
  lemma CruisingEntered(rs: seq<Registers>, r: Registers)
    ensures State(rs + [r]) == Cruising && State(rs) != Cruising
       <==> && State(rs) == Accelerating && Quiet(r) && r.nav.velocity >= 100.0
            && r.nav.displacement + r.nav.brakingDistance + 20.0 < 1250.0
  {
    assert (rs + [r])[..|rs|] == rs;
    QuietMeansNoEmergency(r);
    hide Emergency, Quiet;
  }

  // ---------------------------------------------------------- nominal runs

  /** One step more. */
  lemma SeenOneMore(rs: seq<Registers>, ks: seq<nat>, r: Registers)
    requires Seen(rs, ks) && |ks| < 8 && (forall k :: 0 <= k < |rs| ==> Quiet(rs[k]))
    requires Quiet(r) && Evidence(|ks|, r)
    ensures Seen(rs + [r], ks + [|rs|])
  {
    hide Quiet, Evidence;
    forall k | 0 <= k <= |rs| ensures Quiet((rs + [r])[k]) {
    }
  }

  lemma SeenLonger(rs: seq<Registers>, more: seq<Registers>, ks: seq<nat>)
    requires rs <= more && Seen(rs, ks)
    ensures Seen(more, ks)
  {
    hide Quiet, Evidence;
    assert forall k :: 0 <= k < |rs| ==> more[k] == rs[k];
  }

  lemma SeenShorter(rs: seq<Registers>, ks: seq<nat>, n: nat, j: nat)
    requires Seen(rs, ks) && n <= |ks| && j <= |rs| && (n > 0 ==> ks[n - 1] < j)
    ensures Seen(rs[..j], ks[..n])
  {
    hide Quiet, Evidence;
    assert forall i :: 0 <= i < n ==> ks[..n][i] == ks[i] < j;
    assert forall k :: 0 <= k < j ==> rs[..j][k] == rs[k];
  }

  lemma LastSeen(rs: seq<Registers>, ks: seq<nat>)
    requires Seen(rs, ks)
    ensures |ks| <= 8 && (ks != [] ==> ks[|ks| - 1] < |rs| && Evidence(|ks| - 1, rs[ks[|ks| - 1]]))
    ensures |ks| > 1 ==> ks[|ks| - 2] < ks[|ks| - 1]
  {
    hide Evidence;
  }

  /** A state on the way has been reached by its evidence. */
  lemma {:induction false} TracedBack(rs: seq<Registers>, n: nat) returns (ks: seq<nat>)
    requires n <= 8 && Visits(rs, Nominal(n))
    ensures |ks| == n && Seen(rs, ks)
  {
    ks := [];
    if n > 0 {
      hide Seen, Quiet, Evidence;
      var init := rs[..|rs| - 1];
      if Visits(init, Nominal(n)) {
        ks := TracedBack(init, n);
        SeenLonger(init, rs, ks);
      } else {
        EnteredFrom(init, rs[|rs| - 1], n);
        QuietBefore(init);
        ks := TracedBack(init, n - 1);
        SeenOneMore(init, ks, rs[|rs| - 1]);
        assert rs == init + [rs[|rs| - 1]];
        ks := ks + [|init|];
      }
    } else {
      assert Seen(rs, ks);
    }
  }

  /** A state on the way is entered from the one before it, on its evidence. */
  lemma EnteredFrom(init: seq<Registers>, r: Registers, n: nat)
    requires 0 < n <= 8 && State(init) != Nominal(n) && After(State(init), r) == Nominal(n)
    ensures Watched(State(init)) && Visits(init, Nominal(n - 1)) && Quiet(r) && Evidence(n - 1, r)
  {
    QuietMeansNoEmergency(r);
    if State(init) == Cruising {
      CruisedAfterLaunch(init);
    }
  }

  /** Without an emergency the evidence of `|ks|` steps has them made. */
  lemma {:induction false} StepsFollow(rs: seq<Registers>, ks: seq<nat>)
    requires Seen(rs, ks) && forall k :: 0 <= k < |rs| ==> Quiet(rs[k])
    ensures StepsMade(State(rs)) >= |ks| && !IsFailure(State(rs)) && State(rs) != Invalid
  {
    hide Seen, Quiet, Evidence, State, StepsMade, IsFailure;
    if rs == [] {
      NothingSeen(ks);
    } else {
      var init, r, n := rs[..|rs| - 1], rs[|rs| - 1], |ks|;
      LastSeen(rs, ks);
      var m := if n > 0 && ks[n - 1] == |rs| - 1 then n - 1 else n;
      assert ks[..n] == ks;
      SeenShorter(rs, ks, m, |init|);
      StepsFollow(init, ks[..m]);
      StateOnceMore(rs);
      StepsMadeGrow(State(init), r, m, n);
    }
  }

  lemma NothingSeen(ks: seq<nat>)
    requires Seen([], ks)
    ensures ks == [] && !IsFailure(State([])) && State([]) != Invalid
  {
    hide Seen;
    LastSeen([], ks);
  }

  lemma StepsMadeGrow(s: PodState, r: Registers, m: nat, n: nat)
    requires !IsFailure(s) && s != Invalid && Quiet(r) && StepsMade(s) >= m
    requires m <= n <= 8 && n <= m + 1 && (m < n ==> Evidence(m, r))
    ensures StepsMade(After(s, r)) >= n && !IsFailure(After(s, r)) && After(s, r) != Invalid
  {
    hide Quiet, Evidence, After;
    StepOnEvidence(s, r, StepsMade(s));
  }

  lemma StateOnceMore(rs: seq<Registers>)
    requires rs != []
    ensures State(rs) == After(State(rs[..|rs| - 1]), rs[|rs| - 1])
  {
  }

  /** A run without failure has passed all states before its own. */
  lemma {:induction false} Passed(rs: seq<Registers>, n: nat)
    requires !VisitsFailure(rs) && State(rs) != Invalid && n <= StepsMade(State(rs))
    ensures n <= 8 && Visits(rs, Nominal(n))
  {
    if rs != [] {
      var init, r := rs[..|rs| - 1], rs[|rs| - 1];
      if n <= StepsMade(State(init)) && State(init) != Invalid {
        Passed(init, n);
      }
    }
  }

  lemma {:induction false} VisitsMore(rs: seq<Registers>, j: nat, s: PodState)
    requires j <= |rs| && Visits(rs[..j], s)
    ensures Visits(rs, s)
    decreases |rs|
  {
    if j == |rs| {
      assert rs[..j] == rs;
    } else {
      assert rs[..|rs| - 1][..j] == rs[..j];
      VisitsMore(rs[..|rs| - 1], j, s);
    }
  }

  /** The course of nominal runs, exactly: for each step, a run visits the state behind it iff
      polls in order saw the evidence of the steps up to it, and none until then an emergency.
      At five steps the pod is launched, at seven it brakes, and at eight it has finished. */
  lemma NominalExactly(rs: seq<Registers>, n: nat)
    requires n <= 8
    ensures Visits(rs, Nominal(n)) <==> exists ks :: |ks| == n && Seen(rs, ks)
  {
    if Visits(rs, Nominal(n)) {
      var ks := TracedBack(rs, n);
    }
    if ks :| |ks| == n && Seen(rs, ks) {
      var j := if n == 0 then 0 else ks[n - 1] + 1;
      hide Quiet, Evidence, State;
      assert ks[..n] == ks;
      SeenShorter(rs, ks, n, j);
      StepsFollow(rs[..j], ks);
      NoFailureIfQuiet(rs[..j]);
      Passed(rs[..j], n);
      VisitsMore(rs, j, Nominal(n));
    }
  }

  lemma NoFailureIfQuiet(rs: seq<Registers>)
    requires forall k :: 0 <= k < |rs| ==> Quiet(rs[k])
    ensures !VisitsFailure(rs)
  {
    hide Quiet, State;
    BranchTaken(rs);
    if SawEmergency(rs) {
      var k := EmergencySeen(rs);
    }
  }
}
