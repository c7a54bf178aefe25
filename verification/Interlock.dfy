/** The high-power interlock: the state machine thread and the GPIO thread,
    interleaved at every access to the registers they share.

    The threads share the published state and the flag `high_power_off`, each
    behind its lock; the pins belong to the GPIO thread. Only the GPIO thread
    writes the flag. */
module Interlock {
  import opened PodData
  import opened Transitions
  import StateMachine

  const NUM_SSRS := 1

  /** The state machine either is about to poll or has decided on a transition
      that it has not yet published. */
  datatype Decider = Polling | Entering(next: PodState) | Stopped

  /** Where the GPIO thread stands. `seen` is the state it read in this pass. */
  datatype Gpio =
    | Reading
    | ClearingMaster(seen: PodState)
    | ClearingSsr(seen: PodState, i: nat)
    | RaisingFlag(seen: PodState)
    | SettingSsr(seen: PodState, i: nat)
    | SettingMaster(seen: PodState)
    | LoweringFlag(seen: PodState)
    | EndingPass(seen: PodState)

  datatype Config = Config(
    published: PodState, highPowerOff: bool, master: bool, ssr: seq<bool>,
    decider: Decider, gpio: Gpio, previous: PodState)

  predicate Clears(s: PodState) {
    s !in {Ready, NominalBraking, PreReady}
  }

  // ------------------------------------------------------------------ steps

  /** A poll reads the shared flag; all other data are arbitrary. */
  function PollStep(c: Config, r: Registers): Config {
    match Next(c.published, r.(sensors := r.sensors.(highPowerOff := c.highPowerOff)))
    case None => c
    case Some(s) => c.(decider := Entering(s))
  }

  /** Entering a state publishes it, except Off, which ends the loop. */
  function EnterStep(c: Config, next: PodState): Config {
    if next == Off then c.(decider := Stopped) else c.(published := next, decider := Polling)
  }

  function BeginPass(seen: PodState, previous: PodState): Gpio {
    if seen == previous then EndingPass(seen)
    else if Clears(seen) then ClearingMaster(seen)
    else if seen == PreReady then SettingSsr(seen, 0)
    else EndingPass(seen)
  }

  /** One access of the GPIO thread. */
  function GpioStep(c: Config): Config
    requires |c.ssr| == NUM_SSRS
  {
    match c.gpio
    case Reading => c.(gpio := BeginPass(c.published, c.previous))
    case ClearingMaster(s) => c.(master := false, gpio := ClearingSsr(s, 0))
    case ClearingSsr(s, i) =>
      if i < NUM_SSRS then c.(ssr := c.ssr[i := false], gpio := ClearingSsr(s, i + 1)) else c.(gpio := RaisingFlag(s))
    case RaisingFlag(s) => c.(highPowerOff := true, gpio := EndingPass(s))
    case SettingSsr(s, i) =>
      if i < NUM_SSRS then c.(ssr := c.ssr[i := true], gpio := SettingSsr(s, i + 1)) else c.(gpio := SettingMaster(s))
    case SettingMaster(s) => c.(master := true, gpio := LoweringFlag(s))
    case LoweringFlag(s) => c.(highPowerOff := false, gpio := EndingPass(s))
    case EndingPass(s) => c.(previous := s, gpio := Reading)
  }

  /** Which thread is scheduled next; a poll also draws the data it sees. */
  datatype Action = Decide(r: Registers) | Actuate

  function Apply(c: Config, a: Action): Config
    requires |c.ssr| == NUM_SSRS
  {
    match a
    case Decide(r) =>
      (match c.decider
       case Polling => PollStep(c, r)
       case Entering(next) => EnterStep(c, next)
       case Stopped => c)
    case Actuate => GpioStep(c)
  }

  /** The configuration after an interleaving of the two threads. */
  function Exec(c: Config, acts: seq<Action>): (d: Config)
    requires |c.ssr| == NUM_SSRS
    ensures |d.ssr| == NUM_SSRS
    decreases |acts|
  {
    if acts == [] then c else Exec(Apply(c, acts[0]), acts[1..])
  }

  // -------------------------------------------------------------- vocabulary

  predicate AllLow(c: Config) {
    !c.master && forall i :: 0 <= i < |c.ssr| ==> !c.ssr[i]
  }

  predicate InClear(g: Gpio) {
    g.ClearingMaster? || g.ClearingSsr? || g.RaisingFlag?
  }

  predicate InSet(g: Gpio) {
    g.SettingSsr? || g.SettingMaster? || g.LoweringFlag?
  }

  predicate Braking(s: PodState) {
    s == NominalBraking || s == FailureBraking
  }

  /** The GPIO thread's own bookkeeping: how far an actuation has come. */
  predicate Consistent(c: Config) {
    && |c.ssr| == NUM_SSRS
    && (c.gpio.ClearingSsr? ==> c.gpio.i <= NUM_SSRS && !c.master && forall k :: 0 <= k < c.gpio.i ==> !c.ssr[k])
    && (c.gpio.RaisingFlag? ==> AllLow(c))
    && (InClear(c.gpio) ==> Clears(c.gpio.seen))
    && (c.gpio.SettingSsr? ==> c.gpio.i <= NUM_SSRS)
    && (InSet(c.gpio) ==> c.gpio.seen == PreReady)
  }

  /** Start-up: pins as the constructor leaves them, nothing published but Idle. */
  predicate Boot(c: Config) {
    && c.published == Idle && c.decider == Polling && c.gpio == Reading
    && !c.highPowerOff && c.master && c.ssr == seq(NUM_SSRS, _ => false)
  }

  lemma ConsistentKept(c: Config, a: Action)
    requires Consistent(c)
    ensures Consistent(Apply(c, a))
  {
  }

  // ----------------------------------------------------------------- safety

  /** PreReady is published and the flag is true, or the GPIO thread is not
      in the middle of clearing high power. */
  predicate Armed(c: Config) {
    c.highPowerOff || !InClear(c.gpio)
  }

  /** States between high power coming on and the end of the run. */
  predicate Live(s: PodState) {
    s in {Ready, Accelerating, Cruising, PreBraking, NominalBraking, FailurePreBraking, FailureBraking}
  }

  /** A raised flag means what it says: all pins are low and none is about to rise. */
  predicate FlagTruthful(c: Config) {
    c.highPowerOff ==> AllLow(c) && !InSet(c.gpio)
  }

  /** A transition about to be published is one that some poll leads to. */
  ghost predicate Decided(published: PodState, decider: Decider) {
    decider.Entering? ==> exists r :: Next(published, r) == Some(decider.next)
  }

  ghost predicate Inv(c: Config) {
    && Consistent(c)
    && (c.published == PreReady || c.published in {FailureStopped, Finished} || Live(c.published))
    && Decided(c.published, c.decider)
    && (c.published == PreReady ==> Armed(c))
    && (c.published == PreReady && c.decider == Entering(Ready) ==> !c.highPowerOff)
    && (Live(c.published) ==> FlagTruthful(c))
    && (Braking(c.published) ==> c.highPowerOff)
    && (c.decider.Entering? && Braking(c.decider.next) ==> c.highPowerOff)
  }

  lemma PollKept(c: Config, r: Registers)
    requires Inv(c) && c.decider == Polling
    ensures Inv(Apply(c, Decide(r)))
  {
    ConsistentKept(c, Decide(r));
    hide AllLow, Consistent, InClear, InSet;
  }

  lemma EnterKept(c: Config, r: Registers)
    requires Inv(c) && c.decider.Entering?
    ensures Inv(Apply(c, Decide(r)))
  {
    ConsistentKept(c, Decide(r));
  }

  lemma ActuationKept(c: Config)
    requires Inv(c)
    ensures Inv(Apply(c, Actuate))
  {
    ConsistentKept(c, Actuate);
    hide Decided;
  }

  lemma InvKept(c: Config, a: Action)
    requires Inv(c)
    ensures Inv(Apply(c, a))
  {
    if a == Actuate {
      ActuationKept(c);
    } else if c.decider == Polling {
      PollKept(c, a.r);
    } else if c.decider.Entering? {
      EnterKept(c, a.r);
    }
  }

  /** High power is off for good: nothing that can still happen raises a pin. */
  predicate Locked(c: Config) {
    && Consistent(c)
    && c.highPowerOff && AllLow(c) && !InSet(c.gpio)
    && c.published in {NominalBraking, FailureBraking, FailureStopped, Finished}
    && (c.decider.Entering? ==> c.decider.next in {FailureBraking, FailureStopped, Finished, Off})
  }

  lemma LockedKept(c: Config, a: Action)
    requires Locked(c)
    ensures Locked(Apply(c, a))
  {
    ConsistentKept(c, a);
  }

  lemma {:induction false} LockedForGood(c: Config, acts: seq<Action>)
    requires Locked(c)
    ensures Locked(Exec(c, acts))
    decreases |acts|
  {
    if acts != [] {
      LockedKept(c, acts[0]);
      LockedForGood(Apply(c, acts[0]), acts[1..]);
    }
  }

  /** Whenever a braking state is published, every pin is low, then and ever after. */
  ghost predicate SafeFrom(c: Config)
    requires |c.ssr| == NUM_SSRS
  {
    forall first, rest :: Braking(Exec(c, first).published) ==> AllLow(Exec(Exec(c, first), rest))
  }

  lemma BrakingIsLocked(c: Config)
    requires Inv(c) && Braking(c.published)
    ensures Locked(c)
  {
  }

  lemma {:induction false} InvForGood(c: Config, acts: seq<Action>)
    requires Inv(c)
    ensures Inv(Exec(c, acts))
    decreases |acts|
  {
    if acts != [] {
      InvKept(c, acts[0]);
      InvForGood(Apply(c, acts[0]), acts[1..]);
    }
  }

  lemma InvIsSafe(c: Config)
    requires Inv(c)
    ensures SafeFrom(c)
  {
    forall first, rest | Braking(Exec(c, first).published)
      ensures AllLow(Exec(Exec(c, first), rest))
    {
      InvForGood(c, first);
      BrakingIsLocked(Exec(c, first));
      LockedForGood(Exec(c, first), rest);
    }
  }

  // --------------------------------------------------------- whole runs

  /** Each time PreReady is newly published along the run, the interlock is armed. */
  ghost predicate ArmedWhenPreReady(c: Config, acts: seq<Action>)
    requires |c.ssr| == NUM_SSRS
    decreases |acts|
  {
    acts == [] ||
    (var d := Apply(c, acts[0]);
     && (d.published == PreReady && c.published != PreReady ==> Armed(d))
     && ArmedWhenPreReady(d, acts[1..]))
  }

  /** Before high power: nothing beyond PreReady can come next. */
  predicate Early(c: Config) {
    && Consistent(c)
    && c.published in {Idle, PreCalibrating, Calibrating, FailureStopped}
    && (c.decider.Entering? ==> c.decider.next in {PreCalibrating, Calibrating, PreReady, FailureStopped, Off})
    && (c.published == FailureStopped && c.decider.Entering? ==> c.decider.next == Off)
  }

  lemma EarlyStep(c: Config, a: Action)
    requires Early(c)
    requires Apply(c, a).published == PreReady && c.published != PreReady ==> Armed(Apply(c, a))
    ensures Early(Apply(c, a)) || Inv(Apply(c, a))
  {
    ConsistentKept(c, a);
  }

  lemma {:induction false} EarlyRun(c: Config, acts: seq<Action>)
    requires Early(c) && ArmedWhenPreReady(c, acts)
    ensures Early(Exec(c, acts)) || Inv(Exec(c, acts))
    decreases |acts|
  {
    if acts != [] {
      var d := Apply(c, acts[0]);
      EarlyStep(c, acts[0]);
      if Inv(d) {
        InvForGood(d, acts[1..]);
      } else {
        EarlyRun(d, acts[1..]);
      }
    }
  }

  /** The interlock: in every run from start-up that has the flag up, or no clearing
      under way, when PreReady is published, a published braking state means that
      every pin is low and stays low for the rest of the run. */
  lemma {:induction false} HighPowerInterlock(c: Config, first: seq<Action>, rest: seq<Action>)
    requires Boot(c) && ArmedWhenPreReady(c, first)
    requires Braking(Exec(c, first).published)
    ensures AllLow(Exec(c, first)) && AllLow(Exec(Exec(c, first), rest))
  {
    EarlyRun(c, first);
    BrakingIsLocked(Exec(c, first));
    LockedForGood(Exec(c, first), rest);
  }

  // -------------------------------------------------------------- exactness

  const CALM := Registers(
    ReadyStatus, Navigation(ReadyStatus, 2000.0, 0.0, 0.0, 0.0, 0.0), ReadyStatus,
    Telemetry(ReadyStatus, true, true, false, false), Sensors(ReadyStatus, false), ReadyStatus)

  lemma Prepend(c: Config, a: Action, acts: seq<Action>)
    requires |c.ssr| == NUM_SSRS
    ensures Exec(c, [a] + acts) == Exec(Apply(c, a), acts)
  {
    assert ([a] + acts)[0] == a && ([a] + acts)[1..] == acts;
  }

  ghost predicate Hazard(c: Config, acts: seq<Action>)
    requires |c.ssr| == NUM_SSRS
  {
    Braking(Exec(c, acts).published) && !AllLow(Exec(c, acts))
  }

  /** With a set under way and the flag up, the state machine runs on into braking, and the pin rises. */
  lemma {:induction false} RunsIntoHazard(c: Config) returns (acts: seq<Action>)
    requires |c.ssr| == NUM_SSRS && c.gpio == SettingSsr(PreReady, 0) && c.highPowerOff
    requires (c.decider == Polling && c.published in {Ready, Accelerating, PreBraking, NominalBraking})
          || (c.decider.Entering? && (c.published, c.decider.next) in
              {(PreReady, Ready), (Ready, Accelerating), (Accelerating, PreBraking), (PreBraking, NominalBraking)})
    ensures Hazard(c, acts)
    decreases 20 - StateIndex(c.published) - (if c.decider.Entering? then 1 else 0)
  {
    if c.published == NominalBraking {
      acts := [Actuate];
      var d := Apply(c, Actuate);
      assert d.ssr[0] && d.published == NominalBraking;
      Prepend(c, Actuate, []);
      assert [Actuate] + [] == [Actuate] && Exec(d, []) == d;
    } else {
      acts := RunsIntoHazard(Apply(c, Decide(CALM)));
      Prepend(c, Decide(CALM), acts);
      acts := [Decide(CALM)] + acts;
    }
  }

  function StateIndex(s: PodState): nat {
    match s
    case PreReady => 0
    case Ready => 2
    case Accelerating => 4
    case PreBraking => 6
    case _ => 8
  }

  /** The rest of a clearing pass, then the read of PreReady. */
  lemma {:induction false} ClearThenSet(c: Config) returns (acts: seq<Action>)
    requires Consistent(c) && c.published == PreReady && c.decider == Entering(Ready)
    requires InClear(c.gpio)
          || (c.gpio.EndingPass? && Clears(c.gpio.seen) && c.highPowerOff)
          || (c.gpio.Reading? && c.previous != PreReady && c.highPowerOff)
          || (c.gpio == SettingSsr(PreReady, 0) && c.highPowerOff)
    ensures Hazard(c, acts)
    decreases PassIndex(c.gpio)
  {
    if c.gpio.SettingSsr? {
      acts := RunsIntoHazard(c);
    } else {
      ConsistentKept(c, Actuate);
      acts := ClearThenSet(Apply(c, Actuate));
      Prepend(c, Actuate, acts);
      acts := [Actuate] + acts;
    }
  }

  function PassIndex(g: Gpio): int {
    match g
    case ClearingMaster(_) => 10
    case ClearingSsr(_, i) => 9 - i
    case RaisingFlag(_) => 5
    case EndingPass(_) => 4
    case Reading => 3
    case _ => 2
  }

  /** The condition is exact: when PreReady has just been published, every
      continuation is safe if and only if the flag is up or no clearing is under way. */
  lemma SafeExactlyWhenArmed(c: Config)
    requires Consistent(c) && c.published == PreReady && c.decider == Polling
    ensures SafeFrom(c) <==> Armed(c)
  {
    if Armed(c) {
      InvIsSafe(c);
    } else {
      var d := Apply(c, Decide(CALM));
      ConsistentKept(c, Decide(CALM));
      var acts := ClearThenSet(d);
      Prepend(c, Decide(CALM), acts);
      var first := [Decide(CALM)] + acts;
      assert Exec(Exec(c, first), []) == Exec(c, first);
    }
  }

  /** The hazard is real: from every start-up a schedule leads to it. */
  lemma StartUpReachesHazard(c: Config) returns (acts: seq<Action>)
    requires Boot(c)
    ensures Hazard(c, acts)
  {
    var poll := Decide(CALM);
    if c.previous != Idle {
      var c1 := Apply(c, Actuate);
      acts := ToPreReady(c1);
      Prepend(c, Actuate, acts);
      acts := [Actuate] + acts;
    } else {
      var c1 := Apply(c, poll);
      var c2 := Apply(c1, poll);
      var c3 := Apply(c2, Actuate);
      acts := ToPreReady(c3);
      Prepend(c2, Actuate, acts);
      Prepend(c1, poll, [Actuate] + acts);
      Prepend(c, poll, [poll] + ([Actuate] + acts));
      acts := [poll] + ([poll] + ([Actuate] + acts));
    }
  }

  /** With a clearing held up at its start, the state machine goes on to PreReady. */
  lemma {:induction false} ToPreReady(c: Config) returns (acts: seq<Action>)
    requires Consistent(c) && c.gpio.ClearingMaster? && !c.highPowerOff
    requires (c.decider == Polling && c.published in {Idle, PreCalibrating, Calibrating, PreReady})
          || (c.decider.Entering? && (c.published, c.decider.next) in
              {(Idle, PreCalibrating), (PreCalibrating, Calibrating), (Calibrating, PreReady), (PreReady, Ready)})
    ensures Hazard(c, acts)
    decreases 20 - EarlyIndex(c.published) - (if c.decider.Entering? then 1 else 0)
  {
    if c.published == PreReady && c.decider.Entering? {
      acts := ClearThenSet(c);
    } else {
      ConsistentKept(c, Decide(CALM));
      acts := ToPreReady(Apply(c, Decide(CALM)));
      Prepend(c, Decide(CALM), acts);
      acts := [Decide(CALM)] + acts;
    }
  }

  function EarlyIndex(s: PodState): nat {
    match s
    case Idle => 0
    case PreCalibrating => 2
    case Calibrating => 4
    case _ => 6
  }

  // ---------------------------------------------------------------- progress

  /** Along the run the published state stays in `group`. */
  predicate Stays(c: Config, acts: seq<Action>, group: set<PodState>)
    requires |c.ssr| == NUM_SSRS
    decreases |acts|
  {
    c.published in group && (acts == [] || Stays(Apply(c, acts[0]), acts[1..], group))
  }

  /** How often the GPIO thread is scheduled. */
  function Actuations(acts: seq<Action>): nat {
    if acts == [] then 0 else Actuations(acts[1..]) + if acts[0].Actuate? then 1 else 0
  }

  /** How often the state machine is scheduled. */
  function Decisions(acts: seq<Action>): nat {
    if acts == [] then 0 else Decisions(acts[1..]) + if acts[0].Decide? then 1 else 0
  }

  /** Enough accesses of the GPIO thread for the rest of one pass and the whole of the next. */
  const PASSES := 2 * NUM_SSRS + 8

  predicate PowerOff(c: Config) {
    AllLow(c) && c.highPowerOff && !InSet(c.gpio)
  }

  predicate PowerOn(c: Config) {
    c.master && !c.highPowerOff && !InClear(c.gpio) && forall i :: 0 <= i < |c.ssr| ==> c.ssr[i]
  }

  /** Stretches of a run during which high power is to be off: up to the calibration, from the
      launch on except while the brakes are nominally engaged, and while the brakes wait for it. */
  datatype Stretch = Ground | Underway | Waiting

  function Group(w: Stretch): set<PodState> {
    match w
    case Ground => {Idle, PreCalibrating, Calibrating}
    case Underway =>
      {Accelerating, Cruising, PreBraking, FailurePreBraking, FailureBraking, FailureStopped, Finished}
    case Waiting => {PreBraking, FailurePreBraking}
  }

  /** The states that a stretch may pass through once it is entered. */
  predicate Spans(w: Stretch, s: PodState) {
    if w == Ground then s in Group(Ground) else s in Group(Underway) || s == NominalBraking
  }

  predicate ComesBefore(w: Stretch, s: PodState) {
    w != Ground && s in {Idle, PreCalibrating, Calibrating, PreReady, Ready}
  }

  predicate SeenIn(g: Gpio, group: set<PodState>) {
    !g.Reading? && g.seen in group
  }

  predicate EndsIn(g: Gpio, group: set<PodState>) {
    g.EndingPass? && g.seen in group
  }

  /** What the state machine has decided on, it may publish, and it has only stopped in a final state. */
  ghost predicate Deciding(c: Config) {
    Decided(c.published, c.decider) && (c.decider.Stopped? ==> c.published in {Finished, FailureStopped})
  }

  lemma DecidingKept(c: Config, a: Action)
    requires |c.ssr| == NUM_SSRS && Deciding(c)
    ensures Deciding(Apply(c, a))
  {
  }

  /** If the GPIO thread has been through a pass in this stretch, high power is off. */
  ghost predicate Tracked(c: Config, w: Stretch) {
    && Consistent(c) && Deciding(c)
    && (ComesBefore(w, c.published) ==> c.previous !in Group(w) && !SeenIn(c.gpio, Group(w)))
    && (Spans(w, c.published) && (c.previous in Group(w) || EndsIn(c.gpio, Group(w))) ==> PowerOff(c))
  }

  /** A decision never leads back before a stretch, and into it only from there. */
  lemma StretchesInOrder(c: Config, a: Action, w: Stretch)
    requires |c.ssr| == NUM_SSRS && Deciding(c)
    ensures var d := Apply(c, a);
      && (ComesBefore(w, d.published) ==> ComesBefore(w, c.published))
      && (Spans(w, d.published) ==> Spans(w, c.published) || ComesBefore(w, c.published))
  {
    hide Emergency, ModulesInitialised, ModulesReady;
  }

  lemma GroupIsCleared(w: Stretch, s: PodState)
    ensures s in Group(w) ==> Clears(s)
    ensures Spans(w, s) ==> s != PreReady
    ensures ComesBefore(w, s) ==> s !in Group(w)
  {
  }

  /** A clearing pass ends with high power off, and no other pass than that of PreReady ends this. */
  lemma ClearingEnds(c: Config)
    requires Consistent(c)
    ensures c.gpio.RaisingFlag? ==> PowerOff(Apply(c, Actuate))
    ensures PowerOff(c) && c.published != PreReady ==> PowerOff(Apply(c, Actuate))
  {
  }

  lemma PassTracked(c: Config, w: Stretch)
    requires Tracked(c, w)
    ensures Tracked(Apply(c, Actuate), w)
  {
    ConsistentKept(c, Actuate);
    ClearingEnds(c);
    GroupIsCleared(w, c.published);
    SettingIsOutside(c, w);
    hide Deciding, Next, Group, Spans, ComesBefore, Clears, PowerOff, Consistent;
  }

  /** A pass that raises pins is not one of a stretch. */
  lemma SettingIsOutside(c: Config, w: Stretch)
    requires Consistent(c)
    ensures InSet(c.gpio) ==> !SeenIn(c.gpio, Group(w))
  {
  }

  lemma DecisionTracked(c: Config, r: Registers, w: Stretch)
    requires Tracked(c, w)
    ensures Tracked(Apply(c, Decide(r)), w)
  {
    ConsistentKept(c, Decide(r));
    DecidingKept(c, Decide(r));
    StretchesInOrder(c, Decide(r), w);
    hide Deciding, Next, Consistent, Group, Spans, ComesBefore, Clears;
  }

  lemma TrackedKept(c: Config, a: Action, w: Stretch)
    requires Tracked(c, w)
    ensures Tracked(Apply(c, a), w)
  {
    hide Tracked, Apply;
    if a == Actuate {
      PassTracked(c, w);
    } else {
      DecisionTracked(c, a.r, w);
    }
  }

  lemma {:induction false} TrackedForGood(c: Config, acts: seq<Action>, w: Stretch)
    requires Tracked(c, w)
    ensures Tracked(Exec(c, acts), w)
    decreases |acts|
  {
    if acts != [] {
      hide Tracked;
      TrackedKept(c, acts[0], w);
      assert |Apply(c, acts[0]).ssr| == NUM_SSRS;
      TrackedForGood(Apply(c, acts[0]), acts[1..], w);
    }
  }

  /** Accesses of the GPIO thread until high power is off. */
  function Left(c: Config): int {
    if PowerOff(c) then 0
    else
      match c.gpio
      case RaisingFlag(_) => 1
      case ClearingSsr(_, i) => NUM_SSRS - i + 2
      case ClearingMaster(_) => NUM_SSRS + 3
      case Reading => NUM_SSRS + 4
      case EndingPass(_) => NUM_SSRS + 5
      case LoweringFlag(_) => NUM_SSRS + 6
      case SettingMaster(_) => NUM_SSRS + 7
      case SettingSsr(_, i) => 2 * NUM_SSRS - i + 8
  }

  lemma ActuationHelps(c: Config, w: Stretch)
    requires Tracked(c, w) && c.published in Group(w)
    ensures 0 <= Left(c) <= PASSES
    ensures Left(Apply(c, Actuate)) <= if Left(c) == 0 then 0 else Left(c) - 1
  {
  }

  lemma DecisionWaits(c: Config, r: Registers)
    requires |c.ssr| == NUM_SSRS
    ensures Left(Apply(c, Decide(r))) == Left(c)
  {
    hide Next;
  }

  lemma {:induction false} PowerGoesOff(c: Config, acts: seq<Action>, w: Stretch)
    requires Tracked(c, w) && Stays(c, acts, Group(w)) && Actuations(acts) >= Left(c)
    ensures PowerOff(Exec(c, acts))
    decreases |acts|
  {
    ActuationHelps(c, w);
    if acts != [] {
      hide Tracked, Left, PowerOff, Next;
      var d := Apply(c, acts[0]);
      TrackedKept(c, acts[0], w);
      if acts[0] != Actuate {
        DecisionWaits(c, acts[0].r);
      }
      PowerGoesOff(d, acts[1..], w);
    }
  }

  lemma BootIsTracked(c: Config, w: Stretch)
    requires Boot(c) && c.previous !in Group(w)
    ensures Tracked(c, w)
  {
  }

  lemma StretchEnds(c: Config, first: seq<Action>, wait: seq<Action>, w: Stretch)
    requires Boot(c) && c.previous !in Group(w)
    requires Stays(Exec(c, first), wait, Group(w)) && Actuations(wait) >= PASSES
    ensures PowerOff(Exec(Exec(c, first), wait))
  {
    hide Stays, Left, Tracked, Apply;
    BootIsTracked(c, w);
    TrackedForGood(c, first, w);
    StaysNow(Exec(c, first), wait, Group(w));
    ActuationHelps(Exec(c, first), w);
    PowerGoesOff(Exec(c, first), wait, w);
  }

  /** Progress: while the published state is one of those of a stretch, in any run from start-up,
      ten accesses of the GPIO thread, whatever else is scheduled in between, put all pins low
      and the flag up. */
  lemma HighPowerGoesOff(c: Config, first: seq<Action>, wait: seq<Action>, group: set<PodState>)
    requires Boot(c) && c.previous !in group
    requires group in {{Idle, PreCalibrating, Calibrating}, {PreBraking, FailurePreBraking},
                       {Accelerating, Cruising, PreBraking, FailurePreBraking, FailureBraking,
                        FailureStopped, Finished}}
    requires Stays(Exec(c, first), wait, group) && Actuations(wait) >= 2 * NUM_SSRS + 8
    ensures var d := Exec(Exec(c, first), wait);
      d.highPowerOff && !d.master && forall i :: 0 <= i < NUM_SSRS ==> !d.ssr[i]
  {
    StretchEnds(c, first, wait,
                if group == Group(Ground) then Ground else if group == Group(Waiting) then Waiting else Underway);
  }

  lemma StaysNow(c: Config, acts: seq<Action>, group: set<PodState>)
    requires |c.ssr| == NUM_SSRS && Stays(c, acts, group)
    ensures c.published in group
  {
  }

  /** All continuations of a start that wait for high power to be off have it off in the end. */
  ghost predicate Progresses(c: Config)
    requires |c.ssr| == NUM_SSRS
  {
    forall first, wait ::
      Stays(Exec(c, first), wait, {PreBraking, FailurePreBraking}) && Actuations(wait) >= PASSES
      ==> PowerOff(Exec(Exec(c, first), wait))
  }

  /** The GPIO thread holds that it has dealt with the published state, and the master switch is high. */
  predicate Stuck(c: Config) {
    && |c.ssr| == NUM_SSRS && c.master && c.previous == c.published
    && (c.gpio == Reading || c.gpio == EndingPass(c.published))
  }

  lemma {:induction false} StuckForGood(c: Config, n: nat) returns (wait: seq<Action>)
    requires Stuck(c)
    ensures Actuations(wait) == n && Stays(c, wait, {c.published}) && Stuck(Exec(c, wait))
    decreases n
  {
    wait := [];
    if n > 0 {
      var d := Apply(c, Actuate);
      var more := StuckForGood(d, n - 1);
      Prepend(c, Actuate, more);
      wait := [Actuate] + more;
      assert wait[0] == Actuate && wait[1..] == more;
    }
  }

  /** What the polls see on the way to the braking state `target`. */
  function WayTo(target: PodState, s: PodState): Registers {
    if target == FailurePreBraking && s == Accelerating then CALM.(motors := CriticalFailure) else CALM
  }

  /** With the GPIO thread held up before its first access, the state machine goes on to the state
      that this thread wrongly holds to be the previous one. */
  lemma {:induction false} ToStale(c: Config) returns (acts: seq<Action>)
    requires |c.ssr| == NUM_SSRS && c.gpio == Reading && c.master && !c.highPowerOff
    requires c.previous in {PreBraking, FailurePreBraking}
    requires (c.decider == Polling
              && c.published in {Idle, PreCalibrating, Calibrating, PreReady, Ready, Accelerating, c.previous})
          || (c.decider.Entering? && (c.published, c.decider.next) in
              {(Idle, PreCalibrating), (PreCalibrating, Calibrating), (Calibrating, PreReady), (PreReady, Ready),
               (Ready, Accelerating), (Accelerating, c.previous)})
    ensures Stuck(Exec(c, acts)) && Exec(c, acts).published == c.previous
    decreases 20 - StateMachine.Ordinal(c.published), if c.decider.Entering? then 0 else 1
  {
    acts := [];
    if c.published != c.previous {
      var a := Decide(WayTo(c.previous, c.published));
      acts := ToStale(Apply(c, a));
      Prepend(c, a, acts);
      acts := [a] + acts;
    }
  }

  lemma {:induction false} StaysWithin(c: Config, acts: seq<Action>, some: set<PodState>, more: set<PodState>)
    requires |c.ssr| == NUM_SSRS && Stays(c, acts, some) && some <= more
    ensures Stays(c, acts, more)
    decreases |acts|
  {
    if acts != [] {
      StaysWithin(Apply(c, acts[0]), acts[1..], some, more);
    }
  }

  /** The program does not initialise the previous state. Exactly if that happens to be one of the
      two, some run leaves the master switch high while the pod waits, however long. */
  lemma ProgressExactly(c: Config)
    requires Boot(c)
    ensures Progresses(c) <==> c.previous !in {PreBraking, FailurePreBraking}
  {
    if c.previous in {PreBraking, FailurePreBraking} {
      var first := ToStale(c);
      var wait := StuckForGood(Exec(c, first), PASSES);
      StaysWithin(Exec(c, first), wait, {c.previous}, {PreBraking, FailurePreBraking});
      assert !PowerOff(Exec(Exec(c, first), wait));
    } else {
      forall first, wait |
        Stays(Exec(c, first), wait, {PreBraking, FailurePreBraking}) && Actuations(wait) >= PASSES
        ensures PowerOff(Exec(Exec(c, first), wait))
      {
        StretchEnds(c, first, wait, Waiting);
      }
    }
  }

  // ------------------------------------------------------- braking follows

  /** A braking state is published now or later in the run. */
  predicate Brakes(c: Config, acts: seq<Action>)
    requires |c.ssr| == NUM_SSRS
    decreases |acts|
  {
    Braking(c.published) || (acts != [] && Brakes(Apply(c, acts[0]), acts[1..]))
  }

  /** Accesses of the state machine until a braking state is published, once high power is off. */
  function Ahead(c: Config): nat {
    if Braking(c.published) then 0
    else
      var aside := c.published == PreBraking && !(c.decider.Entering? && Braking(c.decider.next));
      (if aside then 2 else 0) + (if c.decider.Entering? then 1 else 2)
  }

  lemma DecisionHelps(c: Config, r: Registers)
    requires Tracked(c, Waiting) && c.published in Group(Waiting)
    ensures var d := Apply(c, Decide(r));
      && Ahead(c) <= 4
      && (d.published in Group(Waiting) || Braking(d.published))
      && (PowerOff(c) ==> PowerOff(d) && Ahead(d) < Ahead(c))
  {
    hide Emergency;
  }

  lemma PowerStaysOff(c: Config)
    requires Tracked(c, Waiting) && c.published in Group(Waiting) && PowerOff(c)
    ensures PowerOff(Apply(c, Actuate)) && Ahead(Apply(c, Actuate)) == Ahead(c)
  {
  }

  lemma {:induction false} BrakesOncePowerIsOff(c: Config, acts: seq<Action>)
    requires Tracked(c, Waiting) && c.published in Group(Waiting) && PowerOff(c)
    requires Decisions(acts) >= Ahead(c)
    ensures Brakes(c, acts)
    decreases |acts|
  {
    if acts != [] {
      hide Tracked, PowerOff, Next, Ahead;
      var d := Apply(c, acts[0]);
      TrackedKept(c, acts[0], Waiting);
      if acts[0] == Actuate {
        PowerStaysOff(c);
      } else {
        DecisionHelps(c, acts[0].r);
      }
      if !Braking(d.published) {
        BrakesOncePowerIsOff(d, acts[1..]);
      }
    }
  }

  lemma {:induction false} BrakesInTheEnd(c: Config, wait: seq<Action>, more: seq<Action>)
    requires Tracked(c, Waiting) && c.published in Group(Waiting)
    requires Actuations(wait) >= Left(c) && Decisions(more) >= 4
    ensures Brakes(c, wait + more)
    decreases |wait|
  {
    ActuationHelps(c, Waiting);
    if wait == [] {
      assert wait + more == more;
      DecisionHelps(c, CALM);
      BrakesOncePowerIsOff(c, more);
    } else {
      hide Tracked, Left, PowerOff, Next;
      var d := Apply(c, wait[0]);
      assert (wait + more)[0] == wait[0] && (wait + more)[1..] == wait[1..] + more;
      TrackedKept(c, wait[0], Waiting);
      if wait[0] != Actuate {
        DecisionWaits(c, wait[0].r);
        DecisionHelps(c, wait[0].r);
      }
      if !Braking(d.published) {
        BrakesInTheEnd(d, wait[1..], more);
      }
    }
  }

  /** Once PreBraking or FailurePreBraking is published, ten accesses of the GPIO thread and then
      four of the state machine, each among any others and whatever the polls see, have a
      braking state published. */
  lemma BrakingFollows(c: Config, first: seq<Action>, wait: seq<Action>, more: seq<Action>)
    requires Boot(c) && c.previous !in {PreBraking, FailurePreBraking}
    requires Exec(c, first).published in {PreBraking, FailurePreBraking}
    requires Actuations(wait) >= 2 * NUM_SSRS + 8 && Decisions(more) >= 4
    ensures Brakes(Exec(c, first), wait + more)
  {
    hide Left, Tracked, Apply, Brakes;
    BootIsTracked(c, Waiting);
    TrackedForGood(c, first, Waiting);
    ActuationHelps(Exec(c, first), Waiting);
    BrakesInTheEnd(Exec(c, first), wait, more);
  }

  /** With the flag up, the next poll and its publication engage the brakes: nominally if that poll is quiet. */
  lemma NextPollBrakes(c: Config, r: Registers, r': Registers)
    requires |c.ssr| == NUM_SSRS && c.highPowerOff && c.decider == Polling
    ensures var d := Apply(Apply(c, Decide(r)), Decide(r'));
      && (c.published == PreBraking && StateMachine.Quiet(r) ==> d.published == NominalBraking)
      && (c.published == FailurePreBraking ==> d.published == FailureBraking)
  {
  }

  // ---------------------------------------------------------- high power on

  /** How far a setting pass has come. */
  predicate SetConsistent(c: Config) {
    && |c.ssr| == NUM_SSRS
    && (c.gpio.SettingSsr? ==> forall k :: 0 <= k < c.gpio.i && k < NUM_SSRS ==> c.ssr[k])
    && (c.gpio.SettingMaster? || c.gpio.LoweringFlag? ==> forall k :: 0 <= k < NUM_SSRS ==> c.ssr[k])
    && (c.gpio.LoweringFlag? ==> c.master)
  }

  /** If the GPIO thread has been through a pass since PreReady was published, high power is on. */
  ghost predicate TrackedOn(c: Config) {
    && Consistent(c) && SetConsistent(c) && Deciding(c)
    && (c.published in {Idle, PreCalibrating, Calibrating} ==>
          c.previous != PreReady && !SeenIn(c.gpio, {PreReady}))
    && (c.published in {PreReady, Ready} && (c.previous == PreReady || EndsIn(c.gpio, {PreReady})) ==> PowerOn(c))
  }

  lemma ComesFromCalibrating(c: Config, a: Action)
    requires |c.ssr| == NUM_SSRS && Deciding(c)
    ensures var d := Apply(c, a);
      && (d.published in {Idle, PreCalibrating, Calibrating} ==> c.published in {Idle, PreCalibrating, Calibrating})
      && (d.published in {PreReady, Ready} ==>
            c.published in {Idle, PreCalibrating, Calibrating, PreReady, Ready})
  {
    hide Emergency, ModulesInitialised, ModulesReady;
  }

  lemma SetConsistentKept(c: Config, a: Action)
    requires SetConsistent(c)
    ensures SetConsistent(Apply(c, a))
  {
    hide Next;
  }

  lemma PowerOnWaits(c: Config, r: Registers)
    requires |c.ssr| == NUM_SSRS
    ensures PowerOn(Apply(c, Decide(r))) <==> PowerOn(c)
  {
    hide Next;
  }

  lemma PassTrackedOn(c: Config)
    requires TrackedOn(c)
    ensures TrackedOn(Apply(c, Actuate))
  {
    ConsistentKept(c, Actuate);
    SetConsistentKept(c, Actuate);
    SettingEnds(c);
    assert InClear(c.gpio) ==> c.gpio.seen != PreReady;
    hide Deciding, Next, AllLow, SetConsistent, Consistent, PowerOn;
  }

  lemma DecisionTrackedOn(c: Config, r: Registers)
    requires TrackedOn(c)
    ensures TrackedOn(Apply(c, Decide(r)))
  {
    ConsistentKept(c, Decide(r));
    SetConsistentKept(c, Decide(r));
    DecidingKept(c, Decide(r));
    ComesFromCalibrating(c, Decide(r));
    PowerOnWaits(c, r);
    hide Deciding, Next, Consistent, SetConsistent, PowerOn;
  }

  lemma TrackedOnKept(c: Config, a: Action)
    requires TrackedOn(c)
    ensures TrackedOn(Apply(c, a))
  {
    hide TrackedOn, Apply;
    if a == Actuate {
      PassTrackedOn(c);
    } else {
      DecisionTrackedOn(c, a.r);
    }
  }

  /** A setting pass ends with high power on. */
  lemma SettingEnds(c: Config)
    requires Consistent(c) && SetConsistent(c)
    ensures c.gpio.LoweringFlag? ==> PowerOn(Apply(c, Actuate))
    ensures PowerOn(c) && c.published in {PreReady, Ready} ==> PowerOn(Apply(c, Actuate))
  {
  }

  lemma {:induction false} TrackedOnForGood(c: Config, acts: seq<Action>)
    requires TrackedOn(c)
    ensures TrackedOn(Exec(c, acts))
    decreases |acts|
  {
    if acts != [] {
      hide TrackedOn;
      TrackedOnKept(c, acts[0]);
      assert |Apply(c, acts[0]).ssr| == NUM_SSRS;
      TrackedOnForGood(Apply(c, acts[0]), acts[1..]);
    }
  }

  /** Accesses of the GPIO thread until high power is on. */
  function LeftOn(c: Config): int {
    if PowerOn(c) then 0
    else
      match c.gpio
      case LoweringFlag(_) => 1
      case SettingMaster(_) => 2
      case SettingSsr(_, i) => NUM_SSRS - i + 3
      case Reading => NUM_SSRS + 4
      case EndingPass(_) => NUM_SSRS + 5
      case RaisingFlag(_) => NUM_SSRS + 6
      case ClearingSsr(_, i) => 2 * NUM_SSRS - i + 7
      case ClearingMaster(_) => 2 * NUM_SSRS + 8
  }

  lemma ActuationHelpsOn(c: Config)
    requires TrackedOn(c) && c.published == PreReady
    ensures 0 <= LeftOn(c) <= PASSES
    ensures LeftOn(Apply(c, Actuate)) <= if LeftOn(c) == 0 then 0 else LeftOn(c) - 1
  {
  }

  lemma {:induction false} PowerComesOn(c: Config, acts: seq<Action>)
    requires TrackedOn(c) && Stays(c, acts, {PreReady}) && Actuations(acts) >= LeftOn(c)
    ensures PowerOn(Exec(c, acts))
    decreases |acts|
  {
    ActuationHelpsOn(c);
    if acts != [] {
      hide TrackedOn, PowerOn, Next;
      TrackedOnKept(c, acts[0]);
      var d := Apply(c, acts[0]);
      assert acts[0] != Actuate ==> LeftOn(d) == LeftOn(c) by {
        if acts[0] != Actuate {
          DecisionWaitsOn(c, acts[0].r);
        }
      }
      hide LeftOn;
      PowerComesOn(d, acts[1..]);
    }
  }

  lemma DecisionWaitsOn(c: Config, r: Registers)
    requires |c.ssr| == NUM_SSRS
    ensures LeftOn(Apply(c, Decide(r))) == LeftOn(c)
  {
    hide Next;
  }

  /** In PreReady and Ready no pass begins that would turn it off again. */
  lemma {:induction false} PowerStaysOn(c: Config, acts: seq<Action>)
    requires |c.ssr| == NUM_SSRS && PowerOn(c) && Stays(c, acts, {PreReady, Ready})
    ensures PowerOn(Exec(c, acts))
    decreases |acts|
  {
    if acts != [] {
      PowerStaysOnce(c, acts[0]);
      hide PowerOn, Apply;
      PowerStaysOn(Apply(c, acts[0]), acts[1..]);
    }
  }

  lemma PowerStaysOnce(c: Config, a: Action)
    requires |c.ssr| == NUM_SSRS && PowerOn(c) && c.published in {PreReady, Ready}
    ensures PowerOn(Apply(c, a)) && |Apply(c, a).ssr| == NUM_SSRS
  {
    hide Next;
  }

  /** Likewise PreReady, left published for ten accesses of the GPIO thread, ends with all pins
      high and the flag down, and so it stays until the launch. */
  lemma HighPowerComesOn(c: Config, first: seq<Action>, wait: seq<Action>, rest: seq<Action>)
    requires Boot(c) && c.previous != PreReady
    requires Stays(Exec(c, first), wait, {PreReady}) && Actuations(wait) >= 2 * NUM_SSRS + 8
    requires Stays(Exec(Exec(c, first), wait), rest, {PreReady, Ready})
    ensures var d := Exec(Exec(Exec(c, first), wait), rest);
      !d.highPowerOff && d.master && forall i :: 0 <= i < NUM_SSRS ==> d.ssr[i]
  {
    hide Stays, LeftOn, TrackedOn, Apply, Next;
    assert TrackedOn(c) by {
      BootIsTrackedOn(c);
    }
    TrackedOnForGood(c, first);
    StaysNow(Exec(c, first), wait, {PreReady});
    ActuationHelpsOn(Exec(c, first));
    PowerComesOn(Exec(c, first), wait);
    PowerStaysOn(Exec(Exec(c, first), wait), rest);
  }

  lemma BootIsTrackedOn(c: Config)
    requires Boot(c) && c.previous != PreReady
    ensures TrackedOn(c)
  {
  }
}
