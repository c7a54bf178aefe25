/** The navigation thread: which call each published state leads to, and what the
    module has published after any number of polls. */
module NavigationMain {
  import opened Arithmetic
  import opened PodData
  import opened Statistics
  import opened OutlierDetection
  import opened SensorBanks
  import opened Fusion
  import opened ImuArrays
  import opened Motion
  import opened Vibration
  import opened Calibration
  import opened EncoderFaults
  import opened FaultyReckoning
  import opened N = Navigation
  import StateMachine
  import T = Transitions

  /** One pass of the loop: the published state, what the sensors return during a
      calibration and during a navigation, and the clock. */
  datatype Poll = Poll(state: PodState, samples: nat -> ImuData, inputs: Inputs, now: nat)

  predicate Navigates(s: PodState) {
    s in {Accelerating, PreBraking, NominalBraking, Cruising, FailurePreBraking, FailureBraking}
  }

  predicate InLaterState(s: PodState, t: PodState) {
    StateMachine.Ordinal(s) <= StateMachine.Ordinal(t)
  }

  lemma DrivenIsLater(s: PodState)
    requires Navigates(s)
    ensures InLaterState(Accelerating, s)
  {
  }

  /** The query that navigation makes of a poll. */
  function QueryOf(p: Poll, gravity: ImuData, axis: Axis): Query {
    Query(Corrected(p.inputs.imu, gravity, axis), p.inputs.unset)
  }

  /** The queries of the polls that navigate. */
  function QueriesOf(polls: seq<Poll>, gravity: ImuData, axis: Axis): (qs: seq<Query>)
    ensures |qs| <= |polls|
  {
    if polls == [] then []
    else
      var p := polls[|polls| - 1];
      QueriesOf(polls[..|polls| - 1], gravity, axis) + if Navigates(p.state) then [QueryOf(p, gravity, axis)] else []
  }

  function TimesOf(polls: seq<Poll>): (times: seq<nat>)
    ensures |times| <= |polls|
  {
    if polls == [] then []
    else
      var p := polls[|polls| - 1];
      TimesOf(polls[..|polls| - 1]) + if Navigates(p.state) then [p.inputs.micros] else []
  }

  /** What the wheel encoders report in the polls that navigate. */
  function CountsOf(polls: seq<Poll>): (counts: seq<Counters>)
    ensures |counts| <= |polls|
  {
    if polls == [] then []
    else
      var p := polls[|polls| - 1];
      CountsOf(polls[..|polls| - 1]) + if Navigates(p.state) then [p.inputs.encoders] else []
  }

  /** How many queries are made does not depend on the gravity. */
  lemma {:induction false} QueryCount(polls: seq<Poll>, g1: ImuData, g2: ImuData, axis: Axis)
    ensures |QueriesOf(polls, g1, axis)| == |QueriesOf(polls, g2, axis)|
  {
    if polls != [] {
      QueryCount(polls[..|polls| - 1], g1, g2, axis);
    }
  }

  /** The samples of the first calibration: those used before, or those of the first poll that calibrates. */
  function CalibratedOn(before: T.Option<nat -> ImuData>, polls: seq<Poll>): T.Option<nat -> ImuData> {
    if before.Some? || polls == [] then before
    else
      match CalibratedOn(before, polls[..|polls| - 1])
      case Some(samples) => T.Some(samples)
      case None => if polls[|polls| - 1].state == Calibrating then T.Some(polls[|polls| - 1].samples) else T.None
  }

  /** `c` is the first poll that calibrates, and `a` its first good attempt. */
  ghost predicate CalibratesWell(polls: seq<Poll>, c: nat, a: nat) {
    && c < |polls| && polls[c].state == Calibrating
    && (forall k :: 0 <= k < c ==> polls[k].state != Calibrating)
    && a < 3 && FirstGood(polls[c].samples, a)
  }

  /** In the polls that navigate, every IMU reads `u` above the mean of its samples in attempt `a`,
      and in `u` the healthy ones agree with one another in [lo, hi]. */
  ghost predicate HealthyAboveMeans(
      polls: seq<Poll>, u: seq<Readings>, samples: nat -> ImuData, a: nat, axis: Axis,
      faulty: set<nat>, lo: real, hi: real)
    requires |u| == |polls|
  {
    forall k :: 0 <= k < |polls| ==>
      polls[k].state in {Accelerating, Cruising, PreBraking, NominalBraking, FailurePreBraking, FailureBraking} ==>
      && Healthy(u[k], faulty, lo, hi)
      && forall i :: 0 <= i < NUM_SENSORS ==>
           polls[k].inputs.imu[i][axis] == Mean(OwnSamples(samples, a, i, axis)) + u[k][i]
  }

  lemma {:induction false} CalibratedOnFirst(polls: seq<Poll>, c: nat, a: nat)
    requires CalibratesWell(polls, c, a)
    ensures CalibratedOn(T.None, polls) == T.Some(polls[c].samples)
    decreases |polls|
  {
    if c < |polls| - 1 {
      CalibratedOnFirst(polls[..|polls| - 1], c, a);
    } else {
      NotCalibrated(polls[..c]);
    }
  }

  lemma {:induction false} NotCalibrated(polls: seq<Poll>)
    requires forall k :: 0 <= k < |polls| ==> polls[k].state != Calibrating
    ensures CalibratedOn(T.None, polls) == T.None
  {
    if polls != [] {
      NotCalibrated(polls[..|polls| - 1]);
    }
  }

  lemma FirstGoodUnique(samples: nat -> ImuData, a: nat, b: nat)
    requires FirstGood(samples, a) && FirstGood(samples, b) && a < MAX_CALIBRATION_ATTEMPTS
    ensures a == b
  {
    hide AttemptGood;
  }

  /** With the means as gravity, the queries of such polls are healthy. */
  lemma {:induction false} QueriesAreHealthy(
      polls: seq<Poll>, u: seq<Readings>, gravity: ImuData, noise: seq<real>, samples: nat -> ImuData, a: nat,
      axis: Axis, faulty: set<nat>, lo: real, hi: real)
    requires |u| == |polls| && MeasuredBy(samples, a, gravity, noise)
    requires HealthyAboveMeans(polls, u, samples, a, axis, faulty, lo, hi)
    ensures AllHealthy(QueriesOf(polls, gravity, axis), faulty, lo, hi)
    ensures QueriesOf(polls, gravity, axis) != [] <==> exists k :: 0 <= k < |polls| && Navigates(polls[k].state)
  {
    if polls != [] {
      hide Healthy, MeasuredBy, OwnSamples, Mean;
      var init, p := polls[..|polls| - 1], polls[|polls| - 1];
      QueriesAreHealthy(init, u[..|u| - 1], gravity, noise, samples, a, axis, faulty, lo, hi);
      if Navigates(p.state) {
        QueryIsHealthy(p, u[|u| - 1], gravity, noise, samples, a, axis);
      }
      assert forall k :: 0 <= k < |init| ==> init[k] == polls[k];
    }
  }

  lemma QueryIsHealthy(
      p: Poll, u: Readings, gravity: ImuData, noise: seq<real>, samples: nat -> ImuData, a: nat, axis: Axis)
    requires MeasuredBy(samples, a, gravity, noise)
    requires forall i :: 0 <= i < NUM_SENSORS ==>
      p.inputs.imu[i][axis] == Mean(OwnSamples(samples, a, i, axis)) + u[i]
    ensures QueryOf(p, gravity, axis).readings == u
  {
    hide MeasuredBy, OwnSamples, Mean;
    MeasuredComponents(samples, a, gravity, noise);
    assert forall i :: 0 <= i < NUM_SENSORS ==> p.inputs.imu[i][axis] - gravity[i][axis] == u[i];
  }

  lemma OneMorePoll(polls: seq<Poll>, n: nat, gravity: ImuData, axis: Axis, before: T.Option<nat -> ImuData>)
    requires n < |polls|
    ensures var p, made, more := polls[n], polls[..n], polls[..n + 1];
      && QueriesOf(more, gravity, axis)
         == QueriesOf(made, gravity, axis) + (if Navigates(p.state) then [QueryOf(p, gravity, axis)] else [])
      && TimesOf(more) == TimesOf(made) + (if Navigates(p.state) then [p.inputs.micros] else [])
      && CountsOf(more) == CountsOf(made) + (if Navigates(p.state) then [p.inputs.encoders] else [])
      && CalibratedOn(before, more) == (if CalibratedOn(before, made).Some? then CalibratedOn(before, made)
                                        else if p.state == Calibrating then T.Some(p.samples) else T.None)
  {
    assert polls[..n + 1][..n] == polls[..n];
  }

  /** Published states come in the order in which the state machine passes through them. */
  ghost predicate InOrderFrom(s: PodState, polls: seq<Poll>) {
    && (polls != [] ==> InLaterState(s, polls[0].state))
    && (forall k :: 0 <= k < |polls| ==> polls[k].state != Off)
    && forall k :: 0 < k < |polls| ==> InLaterState(polls[k - 1].state, polls[k].state)
  }

  /** Whenever the thread looks, what the state machine has published comes in this order. */
  lemma PublishedInOrder(rs: seq<Registers>, at: seq<nat>, polls: seq<Poll>)
    requires |at| == |polls|
    requires forall k :: 0 <= k < |at| ==> at[k] <= |rs| && (k > 0 ==> at[k - 1] <= at[k])
    requires forall k :: 0 <= k < |polls| ==> polls[k].state == StateMachine.State(rs[..at[k]]) && polls[k].state != Off
    ensures InOrderFrom(Idle, polls)
  {
    forall k | 0 < k < |polls| ensures InLaterState(polls[k - 1].state, polls[k].state) {
      StateMachine.AtMostElevenTransitions(rs[..at[k]]);
      StateMachine.PrefixOfPrefix(rs, at[k], at[k - 1]);
      assert polls[k - 1].state == StateMachine.State(rs[..at[k]][..at[k - 1]]);
    }
  }

  // ----------------------------------------------------------------- history

  /** The calibration of the module: not yet made, or made on these samples, of which
      `first` is the first good attempt. */
  datatype Attempt = NotAttempted | Attempted(samples: nat -> ImuData, first: nat)

  function SamplesOf(a: Attempt): T.Option<nat -> ImuData> {
    match a
    case NotAttempted => T.None
    case Attempted(samples, _) => T.Some(samples)
  }

  /** Status, gravity and noise are what the calibration has left. `failed` says whether
      a detector has since set the status. */
  ghost predicate AttemptHolds(
      a: Attempt, queried: bool, status: ModuleStatus, gravity: ImuData, noise: seq<real>, failed: bool)
  {
    match a
    case NotAttempted =>
      && status in {Init, CriticalFailure}
      && (!queried ==> status == Init)
      && (status == CriticalFailure ==> failed)
    case Attempted(samples, first) =>
      && status in {ReadyStatus, CriticalFailure}
      && FirstGood(samples, first)
      && (first < MAX_CALIBRATION_ATTEMPTS ==>
            MeasuredBy(samples, first, gravity, noise) && (status == CriticalFailure ==> failed))
      && (first == MAX_CALIBRATION_ATTEMPTS ==> status == CriticalFailure)
  }

  lemma AttemptKept(
      a: Attempt, queried: bool, status: ModuleStatus, gravity: ImuData, noise: seq<real>, failed: bool,
      queried': bool, status': ModuleStatus, failed': bool)
    requires AttemptHolds(a, queried, status, gravity, noise, failed)
    requires (queried ==> queried') && (failed ==> failed')
    requires status' == status || (queried' && failed' && status' == CriticalFailure)
    ensures AttemptHolds(a, queried', status', gravity, noise, failed')
  {
    hide FirstGood, MeasuredBy;
  }

  /** The fusion state and the integrators before the first query, the queries made so
      far with their times, what the encoders reported, the last state seen, and the calls. */
  datatype History = History(
    start: Fusion, rest: Reckoning, queries: seq<Query>, times: seq<nat>, counts: seq<Counters>,
    last: PodState, attempt: Attempt, calibrations: nat, initialisations: nat)
  {
    ghost predicate Valid() {
      && Initial(start) && |queries| == |times|
      && !rest.started && rest.velocity.value == rest.displacement.value == 0.0
      && Run(start, queries).Running?
      && EncoderRun(counts).Watching?
      && (queries != [] ==> InLaterState(Accelerating, last))
    }

    /** The present state of the fusion: that of the analysed run of the queries. */
    ghost function Sensed(): Fusion
      requires Valid()
    {
      Run(start, queries).state
    }

    /** The present state of the integrators: that of reckoning with the fused values. */
    ghost function Reckoned(): Reckoning
      requires Valid()
    {
      ReckonAll(rest, FusedSamples(start, queries, times))
    }

    /** The present state of the encoder detector. */
    ghost function Watched(): Detector
      requires Valid()
    {
      EncoderRun(counts).det
    }
  }

  /** The history after one more query. */
  function After(h: History, q: Query, micros: nat): History {
    h.(queries := h.queries + [q], times := h.times + [micros])
  }

  lemma ReckonOnceMore(k: Reckoning, s: Fusion, qs: seq<Query>, times: seq<nat>, q: Query, t: nat)
    requires s.Valid() && |qs| == |times|
    ensures ReckonAll(k, FusedSamples(s, qs + [q], times + [t])) == Reckon(
      ReckonAll(k, FusedSamples(s, qs, times)), DataPoint(t % WORD, FusedOf(Run(s, qs + [q]))))
  {
    hide Run, FusedOf, Reckon;
    var samples, more := FusedSamples(s, qs, times), FusedSamples(s, qs + [q], times + [t]);
    assert (qs + [q])[..|qs|] == qs && (times + [t])[..|times|] == times;
    assert more == samples + [Sample(t, FusedOf(Run(s, qs + [q])))];
    assert more[..|samples|] == samples;
  }

  lemma HistoryGrows(h: History, q: Query, t: nat)
    requires h.Valid() && h.Sensed().det.outliers <= 2 && InLaterState(Accelerating, h.last)
    ensures var g := After(h, q, t);
      && g.Valid()
      && g.Watched() == h.Watched()
      && g.Sensed() == Next(h.Sensed(), q)
      && g.Reckoned() == Reckon(h.Reckoned(), DataPoint(t % WORD, Fused(g.Sensed())))
  {
    hide Next, Reckon, Fused, EncoderRun;
    RunOnceMore(h.start, h.queries, q);
    ReckonOnceMore(h.rest, h.start, h.queries, h.times, q, t);
  }

  /** One more report of the encoders. */
  lemma CountsGrow(h: History, d: Counters)
    requires h.Valid() && h.Watched().outliers <= 2
    ensures var g := h.(counts := h.counts + [d]);
      && g.Valid()
      && g.Sensed() == h.Sensed() && g.Reckoned() == h.Reckoned()
      && g.Watched() == EncoderStep(h.Watched(), d)
  {
    hide Initial, Run, ReckonAll, FusedSamples, EncoderRun, EncoderStep;
    EncoderRunOnceMore(h.counts, d);
  }

  /** One poll: a query, and a report of the encoders unless they raise. */
  lemma PollGrows(h: History, q: Query, t: nat, d: Counters, raised: bool)
    requires h.Valid() && h.Sensed().det.outliers <= 2 && InLaterState(Accelerating, h.last)
    requires !raised ==> h.Watched().outliers <= 2
    ensures var more := After(h, q, t);
      var g := if raised then more else more.(counts := more.counts + [d]);
      && g.Valid()
      && g.Sensed() == Next(h.Sensed(), q)
      && g.Reckoned() == Reckon(h.Reckoned(), DataPoint(t % WORD, Fused(g.Sensed())))
      && g.Watched() == if raised then h.Watched() else EncoderStep(h.Watched(), d)
  {
    hide Next, Reckon, Fused, EncoderStep, History.Valid, History.Sensed, History.Reckoned, History.Watched;
    HistoryGrows(h, q, t);
    if !raised {
      CountsGrow(After(h, q, t), d);
    }
  }

  /** Before the first query the start may still be replaced. */
  lemma StartsAnew(h: History)
    requires Initial(h.start) && h.queries == [] && h.times == [] && EncoderRun(h.counts).Watching?
    requires !h.rest.started && h.rest.velocity.value == h.rest.displacement.value == 0.0
    ensures h.Valid() && h.Sensed() == h.start && h.Reckoned() == h.rest && h.Watched() == EncoderRun(h.counts).det
  {
    hide EncoderRun;
  }

  lemma NotYetDrivenBy(queries: seq<Query>, last: PodState)
    requires queries != [] ==> InLaterState(Accelerating, last)
    ensures InLaterState(last, Calibrating) ==> queries == []
    ensures InLaterState(last, Accelerating) && last != Accelerating ==> queries == []
  {
  }

  lemma AtStart(h: History)
    requires h.Valid() && h.queries == []
    ensures h.times == [] && h.Sensed() == h.start && h.Reckoned() == h.rest
  {
    hide EncoderRun, InLaterState;
  }

  /** No query is made before the pod is driven. */
  lemma NotYetDriven(h: History)
    requires h.Valid()
    ensures InLaterState(h.last, Calibrating) ==> h.queries == []
    ensures InLaterState(h.last, Accelerating) && h.last != Accelerating ==> h.queries == []
    ensures h.queries == [] ==> h.times == [] && h.Sensed() == h.start && h.Reckoned() == h.rest
    ensures Initial(h.start) && !h.rest.started && h.rest.velocity.value == h.rest.displacement.value == 0.0
    ensures EncoderRun(h.counts).Watching? && h.Watched() == EncoderRun(h.counts).det
  {
    hide Initial, EncoderRun, Run, InLaterState, ReckonAll, FusedSamples;
    NotYetDrivenBy(h.queries, h.last);
    if h.queries == [] {
      AtStart(h);
    }
  }

  lemma LaterStateNoted(h: History, s: PodState)
    requires h.Valid() && InLaterState(h.last, s)
    ensures var g := h.(last := s);
      g.Valid() && g.Sensed() == h.Sensed() && g.Reckoned() == h.Reckoned() && g.Watched() == h.Watched()
  {
    hide Initial, EncoderRun, Run, ReckonAll, FusedSamples;
  }

  lemma AttemptBounded(samples: nat -> ImuData, a: nat)
    requires FirstGood(samples, a)
    ensures a <= MAX_CALIBRATION_ATTEMPTS
  {
  }

  lemma CalibratedIsInitial(s: Fusion, t: Fusion)
    requires Initial(s) && t == s.(noise := t.noise) && t.Valid()
    ensures Initial(t)
  {
  }

  lemma PrefixHealthy(some: seq<Query>, all: seq<Query>, faulty: set<nat>, lo: real, hi: real)
    requires some <= all && AllHealthy(all, faulty, lo, hi)
    ensures AllHealthy(some, faulty, lo, hi)
  {
    hide Healthy;
    assert forall k :: 0 <= k < |some| ==> some[k] == all[k];
  }

  lemma PrefixCounted(some: seq<Counters>, all: seq<Counters>, faulty: set<nat>)
    requires some <= all && AllCounted(all, faulty)
    ensures AllCounted(some, faulty)
  {
    hide Counted, NoWrap;
    assert forall k :: 0 <= k < |some| ==> some[k] == all[k];
  }

  // ------------------------------------------------------------------ thread

  class Main {
    const nav: N.Navigation
    var navigationComplete: bool
    var raised: bool
    ghost var history: History

    /** The module is where the analysed run of its queries leads, and has published it. */
    ghost predicate Valid()
      reads this`history, this`raised, nav
      reads nav.imus.bank, nav.imus.bank.reliable, nav.imus.bank.counter, nav.imus.filters.filters
      reads nav.encoders, nav.encoders.reliable, nav.encoders.counter
      reads nav.monitor, nav.monitor.previousMeasurements, nav.reckoner.Parts()
    {
      && nav.Valid() && history.Valid()
      && nav.imus.Value() == history.Sensed()
      && nav.reckoner.Value() == history.Reckoned()
      && nav.encoders.Value() == history.Watched()
      && AttemptHolds(history.attempt, history.queries != [], nav.status, nav.gravityCalibration,
                      nav.imus.Value().noise, nav.imus.bank.critical || nav.encoders.critical)
      && history.calibrations == (if history.attempt.Attempted? then 1 else 0)
      && history.initialisations == (if nav.hasInitialTime then 1 else 0)
      && (history.queries != [] ==>
            && (history.last == Accelerating ==> nav.hasInitialTime)
            && nav.acceleration.value == Fused(nav.imus.Value())
            && (!raised ==> nav.published == nav.Publication()))
      && (raised ==> nav.imus.bank.outliers > 2 || nav.encoders.outliers > 2)
    }

    constructor (axis: Axis)
      ensures Valid() && !navigationComplete && !raised && history.last == Idle && history.queries == []
      ensures history.times == [] && history.counts == [] && history.attempt == NotAttempted
      ensures nav.movementAxis == axis && nav.status == Init
    {
      var n := new N.Navigation(axis);
      ghost var h := History(n.imus.Value(), n.reckoner.Value(), [], [], [], Idle, NotAttempted, 0, 0);
      StartsAnew(h);
      navigationComplete, raised, nav, history := false, false, n, h;
    }

    /** Calibration of a module not calibrated before. */
    method CalibrateNow(p: Poll)
      requires Valid() && !raised && history.queries == [] && history.attempt == NotAttempted
      modifies this`history, nav`status, nav`gravityCalibration, nav`published
      modifies nav.imus.filters.filters
      ensures Valid() && history.last == old(history.last) && SamplesOf(history.attempt) == T.Some(p.samples)
      ensures history.queries == [] && history.times == old(history.times) && history.counts == old(history.counts)
    {
      hide Initial, FirstGood, MeasuredBy, Run, TryNext, Fused, FusedSamples, ReckonAll, Fusion.Valid, Detector.Valid;
      hide History.Valid, History.Sensed, History.Reckoned, History.Watched, EncoderRun, InLaterState;
      hide SensorBank.Valid, SensorBank.Value, ImuArray.Valid, ImuArray.Value, VibrationMonitor.Valid;
      hide DeadReckoner.Valid, N.Navigation.Publication, StateMachine.Ordinal;
      NotYetDriven(history);
      ghost var a := nav.CalibrateGravity(p.samples);
      CalibratedIsInitial(history.start, nav.imus.Value());
      AttemptBounded(p.samples, a);
      history := history.(start := nav.imus.Value(), attempt := Attempted(p.samples, a),
                          calibrations := history.calibrations + 1);
      StartsAnew(history);
    }

    /** Sets the timestamps before the first navigation. */
    method InitialiseNow(p: Poll)
      requires Valid() && !raised && history.queries == [] && !nav.hasInitialTime
      modifies this`history, nav`acceleration, nav`hasInitialTime, nav.reckoner.velocity, nav.reckoner.displacement
      ensures Valid() && nav.hasInitialTime && history.last == old(history.last)
      ensures history == old(history).(rest := history.rest, initialisations := history.initialisations)
    {
      hide Initial, Run, TryNext, Fused, FusedSamples, ReckonAll, Fusion.Valid, Detector.Valid, AttemptHolds;
      hide History.Valid, History.Sensed, History.Reckoned, History.Watched, EncoderRun, InLaterState;
      hide StateMachine.Ordinal;
      hide SensorBank.Valid, SensorBank.Value, ImuArray.Valid, ImuArray.Value, VibrationMonitor.Valid;
      hide DeadReckoner.Valid, N.Navigation.Publication;
      NotYetDriven(history);
      nav.InitialiseTimestamps(p.now);
      nav.hasInitialTime := true;
      history := history.(rest := nav.reckoner.Value(), initialisations := history.initialisations + 1);
      StartsAnew(history);
    }

    /** Notes the state that a poll has found. */
    ghost method Note(s: PodState)
      requires Valid() && InLaterState(history.last, s)
      requires s == Accelerating ==> nav.hasInitialTime
      modifies this`history
      ensures Valid() && history == old(history).(last := s)
    {
      hide History.Valid, History.Sensed, History.Reckoned, History.Watched, AttemptHolds, Fused, Initial;
      hide InLaterState, SensorBank.Valid, SensorBank.Value, ImuArray.Valid, ImuArray.Value;
      hide VibrationMonitor.Valid, DeadReckoner.Valid;
      LaterStateNoted(history, s);
      history := history.(last := s);
    }

    /** Calibration is made in this state unless it has been made before. */
    method Calibrate(p: Poll)
      requires Valid() && !raised && p.state == Calibrating && InLaterState(history.last, Calibrating)
      modifies this`history, nav`status, nav`gravityCalibration, nav`published
      modifies nav.imus.filters.filters
      ensures Valid() && history.last == Calibrating && history.queries == [] == old(history.queries)
      ensures history.times == old(history.times) && history.counts == old(history.counts)
      ensures SamplesOf(history.attempt)
        == if old(history.attempt).Attempted? then SamplesOf(old(history.attempt)) else T.Some(p.samples)
    {
      NotYetDriven(history);
      hide FirstGood, MeasuredBy;
      assert nav.status == Init <==> history.attempt == NotAttempted;
      hide Valid, History.Valid, History.Sensed, History.Reckoned, History.Watched, InLaterState, AttemptHolds;
      if nav.status == Init {
        CalibrateNow(p);
      }
      Note(Calibrating);
    }

    /** Timestamps are set before the first navigation in this state. */
    method Initialise(p: Poll)
      requires Valid() && !raised && p.state == Accelerating && InLaterState(history.last, Accelerating)
      modifies this`history, nav`acceleration, nav`hasInitialTime, nav.reckoner.velocity, nav.reckoner.displacement
      ensures Valid() && nav.hasInitialTime
      ensures history
        == old(history).(last := Accelerating, rest := history.rest, initialisations := history.initialisations)
    {
      NotYetDriven(history);
      hide Fused, History.Valid, History.Sensed, History.Reckoned, History.Watched, N.Navigation.Valid, InLaterState;
      hide AttemptHolds, ImuArray.Value, SensorBank.Value, DeadReckoner.Value;
      if !nav.hasInitialTime {
        InitialiseNow(p);
      }
      Note(Accelerating);
    }

    /** The calls that `h` counts have been made. */
    ghost predicate Counts(h: History)
      reads nav`hasInitialTime
    {
      && h.calibrations == (if h.attempt.Attempted? then 1 else 0)
      && h.initialisations == (if nav.hasInitialTime then 1 else 0)
      && (h.last == Accelerating ==> nav.hasInitialTime)
    }

    /** Notes the poll after which the module is as it is now. */
    ghost method Record(p: Poll)
      requires nav.Valid() && history.Valid() && Counts(history) && InLaterState(Accelerating, history.last)
      requires history.Sensed().det.outliers <= 2 && (!raised ==> history.Watched().outliers <= 2)
      requires nav.imus.Value() == Next(history.Sensed(), QueryOf(p, nav.gravityCalibration, nav.movementAxis))
      requires nav.reckoner.Value()
        == Reckon(history.Reckoned(), DataPoint(p.inputs.micros % WORD, Fused(nav.imus.Value())))
      requires nav.encoders.Value()
        == if raised then history.Watched() else EncoderStep(history.Watched(), p.inputs.encoders)
      requires nav.acceleration.value == Fused(nav.imus.Value())
      requires if raised then nav.encoders.outliers > 2 else nav.published == nav.Publication()
      requires AttemptHolds(history.attempt, true, nav.status, nav.gravityCalibration, nav.imus.Value().noise,
                            nav.imus.bank.critical || nav.encoders.critical)
      modifies this`history
      ensures Valid()
      ensures var more := After(old(history), QueryOf(p, nav.gravityCalibration, nav.movementAxis), p.inputs.micros);
        history == if raised then more else more.(counts := more.counts + [p.inputs.encoders])
    {
      hide Initial, Next, TryNext, Run, Fused, FusedSamples, Reckon, ReckonAll, Corrected, SnapshotOf, EncoderStep;
      hide History.Valid, History.Sensed, History.Reckoned, History.Watched, EncoderRun, EncoderDistance;
      hide InLaterState, StateMachine.Ordinal, AttemptHolds, Fusion.Valid, Detector.Valid;
      hide SensorBank.Valid, SensorBank.Value, ImuArray.Valid, VibrationMonitor.Valid, DeadReckoner.Valid;
      hide ImuArray.Value;
      ghost var q := QueryOf(p, nav.gravityCalibration, nav.movementAxis);
      PollGrows(history, q, p.inputs.micros, p.inputs.encoders, raised);
      history := After(history, q, p.inputs.micros);
      if !raised {
        history := history.(counts := history.counts + [p.inputs.encoders]);
      }
    }

    /** One navigation with at least two reliable IMUs, in the last state noted. */
    method NavigateReliable(p: Poll)
      requires Valid() && !raised && InLaterState(Accelerating, history.last) && nav.imus.bank.outliers <= 2
      requires history.last == Accelerating ==> nav.hasInitialTime
      modifies this`raised, this`history, nav`status, nav`acceleration, nav`encoderDisplacement, nav`published
      modifies nav.imus.bank, nav.imus.bank.reliable, nav.imus.bank.counter, nav.imus.filters.filters
      modifies nav.encoders, nav.encoders.reliable, nav.encoders.counter
      modifies nav.monitor, nav.monitor.previousMeasurements, nav.reckoner.Parts()
      ensures Valid() && raised == (old(nav.encoders.outliers) > 2)
      ensures var more := After(old(history), QueryOf(p, nav.gravityCalibration, nav.movementAxis), p.inputs.micros);
        history == if raised then more else more.(counts := more.counts + [p.inputs.encoders])
    {
      hide Initial, Next, TryNext, Run, Fused, FusedSamples, Reckon, ReckonAll, Corrected, SnapshotOf, EncoderStep;
      hide History.Valid, History.Sensed, History.Reckoned, History.Watched, EncoderRun, EncoderDistance;
      hide InLaterState, StateMachine.Ordinal, N.Navigation.Valid, AttemptHolds, Fusion.Valid, Detector.Valid;
      hide SensorBank.Valid, SensorBank.Value, ImuArray.Valid, VibrationMonitor.Valid, DeadReckoner.Valid;
      hide ImuArray.Value, DeadReckoner.Value, N.Navigation.Publication, N.Navigation.Intact, N.Navigation.Latched;
      ghost var failed, status := nav.imus.bank.critical || nav.encoders.critical, nav.status;
      ghost var noise := nav.imus.Value().noise;
      raised := nav.Navigate(p.inputs);
      AttemptKept(history.attempt, history.queries != [], status, nav.gravityCalibration, noise, failed,
                  true, nav.status, nav.imus.bank.critical || nav.encoders.critical);
      Record(p);
    }

    /** One navigation with fewer than two reliable IMUs: nothing changes. */
    method NavigateRaising(p: Poll)
      requires Valid() && !raised && nav.imus.bank.outliers > 2
      modifies this`raised, this`history, nav`status, nav`acceleration, nav`encoderDisplacement, nav`published
      modifies nav.imus.bank, nav.imus.bank.reliable, nav.imus.bank.counter, nav.imus.filters.filters
      modifies nav.encoders, nav.encoders.reliable, nav.encoders.counter
      modifies nav.monitor, nav.monitor.previousMeasurements, nav.reckoner.Parts()
      ensures Valid() && raised && history == old(history) && nav.gravityCalibration == old(nav.gravityCalibration)
    {
      hide Initial, Next, TryNext, Run, Fused, FusedSamples, Reckon, ReckonAll, Corrected, SnapshotOf, EncoderStep;
      hide SensorBank.Valid, SensorBank.Value, ImuArray.Valid, VibrationMonitor.Valid, DeadReckoner.Valid;
      hide ImuArray.Value, DeadReckoner.Value, N.Navigation.Publication, N.Navigation.Intact, N.Navigation.Latched;
      hide History.Valid, History.Sensed, History.Reckoned, History.Watched, InLaterState, StateMachine.Ordinal;
      hide N.Navigation.Valid, AttemptHolds, EncoderDistance;
      ghost var status, failed := nav.status, nav.imus.bank.critical || nav.encoders.critical;
      raised := nav.Navigate(p.inputs);
      AttemptKept(history.attempt, history.queries != [], status, nav.gravityCalibration, nav.imus.Value().noise,
                  failed, history.queries != [], nav.status, nav.imus.bank.critical || nav.encoders.critical);
    }

    /** One navigation, in the last state noted. With fewer than two reliable sensors of
        a kind the module raises, which ends the thread. */
    method Navigate(p: Poll)
      requires Valid() && !raised && InLaterState(Accelerating, history.last)
      requires history.last == Accelerating ==> nav.hasInitialTime
      modifies this`raised, this`history, nav`status, nav`acceleration, nav`encoderDisplacement, nav`published
      modifies nav.imus.bank, nav.imus.bank.reliable, nav.imus.bank.counter, nav.imus.filters.filters
      modifies nav.encoders, nav.encoders.reliable, nav.encoders.counter
      modifies nav.monitor, nav.monitor.previousMeasurements, nav.reckoner.Parts()
      ensures Valid() && Made(old(history), history, p)
      ensures raised <==> old(nav.imus.bank.outliers) > 2 || old(nav.encoders.outliers) > 2
    {
      hide Valid, QueryOf, InLaterState;
      if nav.imus.bank.outliers <= 2 {
        NavigateReliable(p);
      } else {
        NavigateRaising(p);
      }
    }

    /** What a driving poll adds to the history `h`: all it reads, or, if it raises, no more than that. */
    ghost predicate Made(h: History, h': History, p: Poll)
      reads this`raised, nav`gravityCalibration
    {
      var queries := h.queries + [QueryOf(p, nav.gravityCalibration, nav.movementAxis)];
      && h'.queries <= queries && h'.times <= h.times + [p.inputs.micros] && h'.counts <= h.counts + [p.inputs.encoders]
      && (!raised ==> h'.queries == queries && h'.times == h.times + [p.inputs.micros]
                      && h'.counts == h.counts + [p.inputs.encoders])
      && h'.attempt == h.attempt && h'.last == h.last
    }

    /** Before a navigation: the state is noted, and the timestamps are set if they need to be. */
    method Prepare(p: Poll)
      requires Valid() && !raised && Navigates(p.state) && InLaterState(history.last, p.state)
      modifies this`history, nav`acceleration, nav`hasInitialTime, nav.reckoner.velocity, nav.reckoner.displacement
      ensures Valid() && InLaterState(Accelerating, p.state)
      ensures history.last == Accelerating ==> nav.hasInitialTime
      ensures history
        == old(history).(last := p.state, rest := history.rest, initialisations := history.initialisations)
    {
      DrivenIsLater(p.state);
      hide Valid, InLaterState, StateMachine.Ordinal;
      if p.state == Accelerating {
        Initialise(p);
      } else {
        Note(p.state);
      }
    }

    /** One pass in a state in which the pod is driven or brakes. */
    method Drive(p: Poll)
      requires Valid() && !raised && Navigates(p.state) && InLaterState(history.last, p.state)
      modifies this`raised, this`history, nav`status, nav`hasInitialTime, nav`acceleration,
               nav`encoderDisplacement, nav`published
      modifies nav.imus.bank, nav.imus.bank.reliable, nav.imus.bank.counter, nav.imus.filters.filters
      modifies nav.encoders, nav.encoders.reliable, nav.encoders.counter
      modifies nav.monitor, nav.monitor.previousMeasurements, nav.reckoner.Parts()
      ensures Valid() && Made(old(history).(last := p.state), history, p)
      ensures raised <==> old(nav.imus.bank.outliers) > 2 || old(nav.encoders.outliers) > 2
    {
      hide Valid, InLaterState, QueryOf, StateMachine.Ordinal, Navigates;
      Prepare(p);
      Navigate(p);
    }

    /** One pass of the loop. A driving poll reads the sensors; a calibrating one calibrates
        unless that has been done; nothing else is done. */
    method Step(p: Poll)
      requires Valid() && !raised && !navigationComplete && p.state != Off && InLaterState(history.last, p.state)
      modifies this`navigationComplete, this`raised, this`history, nav`status, nav`gravityCalibration,
               nav`hasInitialTime, nav`acceleration, nav`encoderDisplacement, nav`published
      modifies nav.imus.bank, nav.imus.bank.reliable, nav.imus.bank.counter, nav.imus.filters.filters
      modifies nav.encoders, nav.encoders.reliable, nav.encoders.counter
      modifies nav.monitor, nav.monitor.previousMeasurements, nav.reckoner.Parts()
      ensures Valid() && history.last == p.state
      ensures navigationComplete <==> p.state in {FailureStopped, Finished, Invalid}
      ensures var driven := p.state in {Accelerating, Cruising, PreBraking, NominalBraking,
                                        FailurePreBraking, FailureBraking};
        && (raised <==> driven && (old(nav.imus.bank.outliers) > 2 || old(nav.encoders.outliers) > 2))
        && (driven ==> Made(old(history).(last := p.state), history, p))
        && (!driven ==> history.queries == old(history.queries) && history.times == old(history.times)
                        && history.counts == old(history.counts))
      ensures p.state != Calibrating ==>
        nav.gravityCalibration == old(nav.gravityCalibration) && history.attempt == old(history.attempt)
      ensures p.state == Calibrating ==>
        && history.queries == []
        && SamplesOf(history.attempt)
           == if old(history.attempt).Attempted? then SamplesOf(old(history.attempt)) else T.Some(p.samples)
    {
      hide Valid, InLaterState, QueryOf, StateMachine.Ordinal;
      match p.state {
        case Idle | PreReady | Ready | PreCalibrating =>
          Note(p.state);
        case Calibrating =>
          Calibrate(p);
        case Accelerating | PreBraking | NominalBraking | Cruising | FailurePreBraking | FailureBraking =>
          Drive(p);
        case FailureStopped | Finished | Invalid =>
          Note(p.state);
          navigationComplete := true;
      }
    }

    /** What the polls made since the history was `h` have added to it. */
    ghost predicate MadeAll(h: History, polls: seq<Poll>)
      reads this`raised, this`history, nav`gravityCalibration
    {
      var queries := h.queries + QueriesOf(polls, nav.gravityCalibration, nav.movementAxis);
      && history.queries <= queries
      && history.times <= h.times + TimesOf(polls) && history.counts <= h.counts + CountsOf(polls)
      && (!raised ==> history.queries == queries && history.times == h.times + TimesOf(polls)
                      && history.counts == h.counts + CountsOf(polls))
      && SamplesOf(history.attempt) == CalibratedOn(SamplesOf(h.attempt), polls)
    }

    /** One pass carries that from `n` polls to the next. */
    method StepAll(polls: seq<Poll>, n: nat, ghost h: History)
      requires Valid() && !raised && !navigationComplete && n < |polls| && MadeAll(h, polls[..n])
      requires polls[n].state != Off && InLaterState(history.last, polls[n].state)
      modifies this`navigationComplete, this`raised, this`history, nav`status, nav`gravityCalibration,
               nav`hasInitialTime, nav`acceleration, nav`encoderDisplacement, nav`published
      modifies nav.imus.bank, nav.imus.bank.reliable, nav.imus.bank.counter, nav.imus.filters.filters
      modifies nav.encoders, nav.encoders.reliable, nav.encoders.counter
      modifies nav.monitor, nav.monitor.previousMeasurements, nav.reckoner.Parts()
      ensures Valid() && history.last == polls[n].state && MadeAll(h, polls[..n + 1])
    {
      hide Valid, InLaterState, QueryOf, QueriesOf, TimesOf, CountsOf, CalibratedOn, StateMachine.Ordinal;
      ghost var gravity := nav.gravityCalibration;
      Step(polls[n]);
      QueryCount(polls[..n], gravity, nav.gravityCalibration, nav.movementAxis);
      OneMorePoll(polls, n, nav.gravityCalibration, nav.movementAxis, SamplesOf(h.attempt));
    }

    /** The loop, over the polls up to the stop of the system, of which `n` are made.
        Every driving poll makes one query, corrected by the gravity that the module has
        in the end, and the first calibrating poll is the one calibrated on. */
    method Loop(polls: seq<Poll>) returns (n: nat)
      requires Valid() && !raised && !navigationComplete && InOrderFrom(history.last, polls)
      modifies this`navigationComplete, this`raised, this`history, nav`status, nav`gravityCalibration,
               nav`hasInitialTime, nav`acceleration, nav`encoderDisplacement, nav`published
      modifies nav.imus.bank, nav.imus.bank.reliable, nav.imus.bank.counter, nav.imus.filters.filters
      modifies nav.encoders, nav.encoders.reliable, nav.encoders.counter
      modifies nav.monitor, nav.monitor.previousMeasurements, nav.reckoner.Parts()
      ensures Valid() && n <= |polls| && (n == |polls| || navigationComplete || raised)
      ensures history.calibrations <= 1 && history.initialisations <= 1
      ensures MadeAll(old(history), polls[..n])
    {
      hide Valid, InLaterState, MadeAll, StateMachine.Ordinal;
      n := 0;
      ghost var h := history;
      NothingMade(h, polls[..0]);
      while n < |polls| && !navigationComplete && !raised
        invariant n <= |polls| && Valid() && history.last == if n == 0 then h.last else polls[n - 1].state
        invariant MadeAll(h, polls[..n])
      {
        StepAll(polls, n, h);
        n := n + 1;
      }
      CalledAtMostOnce();
    }

    lemma NothingMade(h: History, polls: seq<Poll>)
      requires h == history && polls == []
      ensures MadeAll(h, polls)
    {
    }

    lemma CalledAtMostOnce()
      requires Valid()
      ensures history.calibrations <= 1 && history.initialisations <= 1
    {
    }

    /** Acceleration, velocity, and displacement as published are bounded by the healthy range. */
    ghost predicate PublishedWithin(lo: real, hi: real)
      reads this`history, nav`published
    {
      && Within(nav.published.acceleration, lo, hi, 1.5)
      && (history.times != [] && InOrder(history.times) ==>
            var t, a, b := Span(history.times), Min(0.0, lo) - 1.5, Max(0.0, hi) + 1.5;
            && VelocityAt(0.0, a, t) <= nav.published.velocity <= VelocityAt(0.0, b, t)
            && PositionAt(0.0, 0.0, a, t) <= nav.published.displacement <= PositionAt(0.0, 0.0, b, t))
    }

    /** The guarantee of the redundancy over all the thread has done: with at most one
        faulty IMU no IMU failure ends or fails it, and what it publishes is bounded. */
    lemma OneFaultPublished(faulty: set<nat>, lo: real, hi: real)
      requires Valid() && |faulty| <= 1 && AllHealthy(history.queries, faulty, lo, hi)
      ensures nav.imus.bank.outliers <= 1 && !nav.imus.bank.critical
      ensures !raised && history.queries != [] ==> PublishedWithin(lo, hi)
    {
      hide Initial, Healthy, AllHealthy, Run, Fused, FusedSamples, ReckonAll, Within, VelocityAt, PositionAt, Span;
      hide AttemptHolds, EncoderRun;
      OneFaultTolerance(history.start, history.queries, faulty, lo, hi);
      if history.queries != [] && InOrder(history.times) {
        OneFaultReckoning(history.start, history.rest, history.queries, history.times, faulty, lo, hi);
      }
    }

    lemma OneEncoderFault(faulty: set<nat>)
      requires Valid() && |faulty| <= 1 && AllCounted(history.counts, faulty)
      ensures nav.encoders.outliers <= 1 && !nav.encoders.critical
    {
      hide Initial, Run, Fused, FusedSamples, ReckonAll, AttemptHolds, EncoderRun, AllCounted;
      EncoderTolerance(history.counts, faulty);
    }

    /** The calibration has been made and none of its attempts was good. */
    ghost predicate CalibrationFailed()
      reads this`history
    {
      && history.attempt.Attempted?
      && forall a :: 0 <= a < MAX_CALIBRATION_ATTEMPTS ==> !AttemptGood(history.attempt.samples, a)
    }

    /** The module fails only by its calibration or a detector. */
    lemma FailsOnlyBy()
      requires Valid() && nav.status == CriticalFailure && !nav.imus.bank.critical && !nav.encoders.critical
      ensures CalibrationFailed()
    {
      hide History.Valid, N.Navigation.Valid, MeasuredBy, AttemptGood;
    }

    /** The whole run of the thread from start-up. With at most one faulty IMU and at most
        one faulty encoder in the polls made, of which no counters wrap, it does not raise,
        fails only if its calibration does, and publishes what the healthy IMUs allow. */
    method RunFromStart(
        polls: seq<Poll>, ghost imu: set<nat>, ghost encoder: set<nat>, ghost lo: real, ghost hi: real)
        returns (n: nat)
      requires Valid() && !raised && !navigationComplete && InOrderFrom(history.last, polls)
      requires history.queries == [] && history.times == [] && history.counts == [] && history.attempt == NotAttempted
      requires |imu| <= 1 && |encoder| <= 1
      modifies this`navigationComplete, this`raised, this`history, nav`status, nav`gravityCalibration,
               nav`hasInitialTime, nav`acceleration, nav`encoderDisplacement, nav`published
      modifies nav.imus.bank, nav.imus.bank.reliable, nav.imus.bank.counter, nav.imus.filters.filters
      modifies nav.encoders, nav.encoders.reliable, nav.encoders.counter
      modifies nav.monitor, nav.monitor.previousMeasurements, nav.reckoner.Parts()
      ensures Valid() && n <= |polls| && (n == |polls| || navigationComplete || raised)
      ensures SamplesOf(history.attempt) == CalibratedOn(T.None, polls[..n])
      ensures var queries := QueriesOf(polls[..n], nav.gravityCalibration, nav.movementAxis);
        AllHealthy(queries, imu, lo, hi) ==>
          && !nav.imus.bank.critical
          && (!raised ==> history.queries == queries && (queries != [] ==> PublishedWithin(lo, hi)))
          && (AllCounted(CountsOf(polls[..n]), encoder) ==>
                !raised && (nav.status == CriticalFailure ==> CalibrationFailed()))
    {
      ghost var h := history;
      n := Loop(polls);
      ghost var queries := QueriesOf(polls[..n], nav.gravityCalibration, nav.movementAxis);
      assert [] + queries == queries && [] + CountsOf(polls[..n]) == CountsOf(polls[..n]);
      if AllHealthy(queries, imu, lo, hi) {
        PrefixHealthy(history.queries, queries, imu, lo, hi);
        OneFaultPublished(imu, lo, hi);
        if AllCounted(CountsOf(polls[..n]), encoder) {
          PrefixCounted(history.counts, CountsOf(polls[..n]), encoder);
          OneEncoderFault(encoder);
          StopsOnlyBy();
          if nav.status == CriticalFailure {
            FailsOnlyBy();
          }
        }
      }
    }

    /** The same of what the sensors report. When the first calibration is good at attempt `a`, and
        in all driving polls made the IMUs but at most one read `u` above the means of their samples
        in that attempt, the published motion is bounded by the range of `u`; with at most one
        faulty encoder, and no counters that wrap, the module neither raises nor fails. */
    method RunCalibrated(
        polls: seq<Poll>, ghost u: seq<Readings>, ghost c: nat, ghost a: nat,
        ghost imu: set<nat>, ghost encoder: set<nat>, ghost lo: real, ghost hi: real)
        returns (n: nat)
      requires Valid() && !raised && !navigationComplete && InOrderFrom(history.last, polls)
      requires history.queries == [] && history.times == [] && history.counts == [] && history.attempt == NotAttempted
      requires |imu| <= 1 && |encoder| <= 1 && |u| == |polls|
      modifies this`navigationComplete, this`raised, this`history, nav`status, nav`gravityCalibration,
               nav`hasInitialTime, nav`acceleration, nav`encoderDisplacement, nav`published
      modifies nav.imus.bank, nav.imus.bank.reliable, nav.imus.bank.counter, nav.imus.filters.filters
      modifies nav.encoders, nav.encoders.reliable, nav.encoders.counter
      modifies nav.monitor, nav.monitor.previousMeasurements, nav.reckoner.Parts()
      ensures Valid() && n <= |polls| && (n == |polls| || navigationComplete || raised)
      ensures
        && CalibratesWell(polls[..n], c, a)
        && HealthyAboveMeans(polls[..n], u[..n], polls[c].samples, a, nav.movementAxis, imu, lo, hi) ==>
          && !nav.imus.bank.critical
          && (!raised && (exists k :: 0 <= k < n && Navigates(polls[k].state)) ==> PublishedWithin(lo, hi))
          && (AllCounted(CountsOf(polls[..n]), encoder) ==> !raised && nav.status != CriticalFailure)
    {
      hide Valid, InOrderFrom, HealthyAboveMeans, AllHealthy, AllCounted, QueriesOf, CountsOf, CalibratedOn;
      hide PublishedWithin, FirstGood, MeasuredBy, CalibrationFailed, Navigates;
      n := RunFromStart(polls, imu, encoder, lo, hi);
      if CalibratesWell(polls[..n], c, a)
         && HealthyAboveMeans(polls[..n], u[..n], polls[c].samples, a, nav.movementAxis, imu, lo, hi) {
        CalibratedOnFirst(polls[..n], c, a);
        assert polls[..n][c] == polls[c];
        WellCalibrated(polls[c].samples, a);
        QueriesAreHealthy(polls[..n], u[..n], nav.gravityCalibration, nav.imus.Value().noise, polls[c].samples, a,
                          nav.movementAxis, imu, lo, hi);
      }
    }

    /** Calibrated on these samples, the module has measured by their first good attempt. */
    lemma WellCalibrated(samples: nat -> ImuData, a: nat)
      requires Valid() && SamplesOf(history.attempt) == T.Some(samples)
      requires FirstGood(samples, a) && a < MAX_CALIBRATION_ATTEMPTS
      ensures MeasuredBy(samples, a, nav.gravityCalibration, nav.imus.Value().noise) && !CalibrationFailed()
    {
      hide History.Valid, N.Navigation.Valid, MeasuredBy, AttemptGood;
      FirstGoodUnique(samples, a, history.attempt.first);
    }

    lemma StopsOnlyBy()
      requires Valid() && nav.imus.bank.outliers <= 2 && nav.encoders.outliers <= 2
      ensures !raised
    {
    }
  }
}
