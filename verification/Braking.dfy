/** The braking-zone test against kinematics: does the pod stop within the run? */
module Braking {
  import opened Arithmetic
  import opened PodData
  import opened Transitions
  import opened Motion
  import StateMachine

  const EMERGENCY_DECELERATION := 24.0

  /** The deceleration that the published braking distance stands for: 24 / 1.2. */
  const ASSUMED_DECELERATION := 20.0

  function EmergencyBrakingDistance(velocity: real): real {
    Square(velocity) / (2.0 * EMERGENCY_DECELERATION)
  }

  /** Braking distance as navigation publishes it. */
  function BrakingDistance(velocity: real): real {
    1.2 * EmergencyBrakingDistance(velocity)
  }

  /** Braking at `rate` for `seconds`. */
  datatype Phase = Phase(rate: real, seconds: real)

  function Brake(d: real, v: real, phases: seq<Phase>): (real, real)
    decreases |phases|
  {
    if phases == [] then (d, v)
    else
      var (d', v') := Brake(d, v, phases[..|phases| - 1]);
      var p := phases[|phases| - 1];
      (PositionAt(d', v', -p.rate, p.seconds), VelocityAt(v', -p.rate, p.seconds))
  }

  /** Moving forward, the pod would stop short of `limit` at the assumed
      deceleration; moving backward, it is short of it. */
  predicate ShortOf(limit: real, d: real, v: real) {
    if v >= 0.0 then d + BrakingDistance(v) < limit else d < limit
  }

  lemma BrakingDistanceIs(v: real)
    ensures BrakingDistance(v) == Square(v) / (2.0 * ASSUMED_DECELERATION) >= 0.0
  {
  }

  /** While the pod still moves forward, braking at 20 or more spends at least the distance it saves. */
  lemma EnergyStep(d: real, v: real, rate: real, t: real)
    requires t >= 0.0
    ensures var d', v' := PositionAt(d, v, -rate, t), VelocityAt(v, -rate, t);
      d' + BrakingDistance(v') == d + BrakingDistance(v)
        - Times(Times(rate / ASSUMED_DECELERATION - 1.0, t), (v + v') / 2.0)
  {
    BrakingDistanceIs(v);
    BrakingDistanceIs(VelocityAt(v, -rate, t));
  }

  /** Completing the square: displacement under braking has its peak v^2 / (2 rate) ahead. */
  lemma PeakIdentity(d: real, v: real, rate: real, t: real)
    requires rate > 0.0
    ensures PositionAt(d, v, -rate, t) + Div(Square(VelocityAt(v, -rate, t)), 2.0 * rate)
         == d + Div(Square(v), 2.0 * rate)
  {
    var w := v - rate * t;
    assert VelocityAt(v, -rate, t) == w;
    var x, y := Div(Square(v), 2.0 * rate), Div(Square(w), 2.0 * rate);
    assert x * (2.0 * rate) == v * v && y * (2.0 * rate) == w * w;
    var z := v * t - rate * (t * t) / 2.0;
    assert (x - y) * (2.0 * rate) == z * (2.0 * rate);
    assert (x - y - z) * (2.0 * rate) == 0.0;
    assert x - y == z;
  }

  lemma PhaseKeepsShort(limit: real, d: real, v: real, rate: real, t: real)
    requires ShortOf(limit, d, v) && rate >= ASSUMED_DECELERATION && t >= 0.0
    ensures ShortOf(limit, PositionAt(d, v, -rate, t), VelocityAt(v, -rate, t))
    ensures PositionAt(d, v, -rate, t) < limit
  {
    var d', v' := PositionAt(d, v, -rate, t), VelocityAt(v, -rate, t);
    BrakingDistanceIs(v);
    BrakingDistanceIs(v');
    TimesNonNegative(rate, t);
    assert v' == v - Times(rate, t) by {
      assert Times(-rate, t) == -Times(rate, t);
    }
    if v >= 0.0 && v' >= 0.0 {
      EnergyStep(d, v, rate, t);
      TimesNonNegative(rate / ASSUMED_DECELERATION - 1.0, t);
      TimesNonNegative(Times(rate / ASSUMED_DECELERATION - 1.0, t), (v + v') / 2.0);
    } else if v >= 0.0 {
      PeakIdentity(d, v, rate, t);
      SquareNonNegative(v);
      SquareNonNegative(v');
      DivAntitone(Square(v'), 2.0 * ASSUMED_DECELERATION, 2.0 * rate);
      DivAntitone(Square(v), 2.0 * ASSUMED_DECELERATION, 2.0 * rate);
    } else {
      TimesNonNegative(-v, t);
      SquareNonNegative(t);
      TimesNonNegative(rate, Square(t));
      assert d' == d - Times(-v, t) - Times(rate, Square(t)) / 2.0;
    }
  }

  lemma {:induction false} PhasesKeepShort(limit: real, d: real, v: real, phases: seq<Phase>)
    requires ShortOf(limit, d, v)
    requires forall k :: 0 <= k < |phases| ==> phases[k].rate >= ASSUMED_DECELERATION && phases[k].seconds >= 0.0
    ensures ShortOf(limit, Brake(d, v, phases).0, Brake(d, v, phases).1)
    ensures Brake(d, v, phases).0 < limit
  {
    if phases == [] {
      BrakingDistanceIs(v);
    } else {
      var init, p := phases[..|phases| - 1], phases[|phases| - 1];
      PhasesKeepShort(limit, d, v, init);
      hide ShortOf, PositionAt, VelocityAt;
      var b := Brake(d, v, init);
      PhaseKeepsShort(limit, b.0, b.1, p.rate, p.seconds);
    }
  }

  /** Stopping bound. Take the last poll that was not yet in the braking zone. If
      from there to the onset of braking the displacement and the braking distance
      together grow by at most the buffer, then braking at 20 m/s^2 or more, at
      whatever changing rate, keeps the pod short of the end of the run for ever. */
  lemma StoppingBound(poll: Navigation, d: real, v: real, phases: seq<Phase>)
    requires poll.brakingDistance == BrakingDistance(poll.velocity) && !EnteredBrakingZone(poll)
    requires v >= 0.0
    requires (d - poll.displacement) + (BrakingDistance(v) - poll.brakingDistance) <= BRAKING_BUFFER
    requires forall k :: 0 <= k < |phases| ==> phases[k].rate >= ASSUMED_DECELERATION && phases[k].seconds >= 0.0
    ensures Brake(d, v, phases).0 < RUN_LENGTH
  {
    PhasesKeepShort(RUN_LENGTH, d, v, phases);
  }

  lemma Regroup(a: real, b: real, c: real)
    ensures Times(Times(a - 1.0, b), c) == -Times(1.0 - a, Times(b, c))
  {
  }

  /** Coasting between that poll and the onset, as in the pre-braking states, stays
      within the buffer as long as the pod covers at most 20 m at its polled speed. */
  lemma CoastingWithinBuffer(poll: Navigation, cruisingDeceleration: real, t: real)
    requires poll.brakingDistance == BrakingDistance(poll.velocity)
    requires 0.0 <= cruisingDeceleration <= ASSUMED_DECELERATION && t >= 0.0
    requires VelocityAt(poll.velocity, -cruisingDeceleration, t) >= 0.0
    requires Times(poll.velocity, t) <= BRAKING_BUFFER
    ensures var d, v := PositionAt(poll.displacement, poll.velocity, -cruisingDeceleration, t),
                        VelocityAt(poll.velocity, -cruisingDeceleration, t);
      (d - poll.displacement) + (BrakingDistance(v) - poll.brakingDistance) <= BRAKING_BUFFER
  {
    var c, v0 := cruisingDeceleration, poll.velocity;
    var v := VelocityAt(v0, -c, t);
    EnergyStep(poll.displacement, v0, c, t);
    TimesNonNegative(c, t);
    assert v == v0 - Times(c, t) by {
      assert Times(-c, t) == -Times(c, t);
    }
    var share := 1.0 - c / ASSUMED_DECELERATION;
    assert Times(Times(c / ASSUMED_DECELERATION - 1.0, t), (v0 + v) / 2.0)
        == -Times(share, Times(t, (v0 + v) / 2.0)) by {
      Regroup(c / ASSUMED_DECELERATION, t, (v0 + v) / 2.0);
    }
    TimesMonotone(t, t, (v0 + v) / 2.0, v0);
    TimesMonotone(share, 1.0, Times(t, (v0 + v) / 2.0), Times(t, v0));
    assert Times(t, v0) == Times(v0, t);
  }

  predicate ShortAt(limit: real, d: real, v: real, rate: real, t: real) {
    PositionAt(d, v, -rate, t) < limit
  }

  /** At a constant rate the pod stays short of a limit at all times exactly when
      its present position plus v^2 / (2 rate) is short of it. */
  lemma ShortExactly(limit: real, d: real, v: real, rate: real)
    requires v >= 0.0 && rate > 0.0
    ensures (forall t :: t >= 0.0 ==> ShortAt(limit, d, v, rate, t)) <==> d + Div(Square(v), 2.0 * rate) < limit
  {
    var peak := Div(v, rate);
    assert VelocityAt(v, -rate, peak) == 0.0 && peak >= 0.0;
    PeakIdentity(d, v, rate, peak);
    assert Square(0.0) == 0.0 && Div(0.0, 2.0 * rate) == 0.0;
    assert PositionAt(d, v, -rate, peak) == d + Div(Square(v), 2.0 * rate);
    assert ShortAt(limit, d, v, rate, peak) <==> d + Div(Square(v), 2.0 * rate) < limit;
    forall t | t >= 0.0 && ShortAt(limit, d, v, rate, peak)
      ensures ShortAt(limit, d, v, rate, t)
    {
      PeakIdentity(d, v, rate, t);
      SquareNonNegative(VelocityAt(v, -rate, t));
      DivAntitone(Square(VelocityAt(v, -rate, t)), 2.0 * rate, 2.0 * rate);
    }
  }

  // ------------------------------------------------------- over whole runs

  /** A poll of the state machine, `seconds` after the one before. */
  datatype Tick = Tick(seconds: real, registers: Registers)

  /** The published state, the motion of the pod, and how long it has coasted before braking. */
  datatype Pod = Pod(state: PodState, motion: Trajectory, coasted: real)

  predicate Coasts(s: PodState) {
    s in {PreBraking, FailurePreBraking}
  }

  /** The pod `t` seconds on, in an unchanged state. */
  function Moved(c: Config, p: Pod, t: real): Pod {
    Pod(p.state, Advance(c, p.state, p.motion, t), p.coasted + if Coasts(p.state) then t else 0.0)
  }

  function Ticked(c: Config, p: Pod, t: Tick): Pod {
    var m := Moved(c, p, t.seconds);
    m.(state := StateMachine.After(p.state, t.registers))
  }

  /** The pod from rest in Idle, driven by the state machine that polls it. */
  function Ride(c: Config, ticks: seq<Tick>): Pod {
    if ticks == [] then Pod(Idle, Trajectory(0.0, 0.0, 0.0), 0.0)
    else Ticked(c, Ride(c, ticks[..|ticks| - 1]), ticks[|ticks| - 1])
  }

  /** The poll reads the pod's true motion. */
  predicate Sees(r: Registers, j: Trajectory) {
    && r.nav.displacement == j.displacement && r.nav.velocity == j.velocity
    && r.nav.brakingDistance == BrakingDistance(j.velocity)
  }

  /** Polls at most `gap` seconds apart, all of which see the true motion. */
  ghost predicate WellPolled(c: Config, ticks: seq<Tick>, gap: real) {
    ticks == [] ||
    (var init, t := ticks[..|ticks| - 1], ticks[|ticks| - 1];
     && WellPolled(c, init, gap)
     && 0.0 <= t.seconds <= gap
     && Sees(t.registers, Moved(c, Ride(c, init), t.seconds).motion))
  }

  /** Fastest speed that one gap between polls allows beyond the maximum velocity. */
  function TopVelocity(c: Config, gap: real): real {
    MAXIMUM_VELOCITY + Times(c.maximumAcceleration, gap)
  }

  /** What displacement and braking distance can grow by in a gap and then in coasting for `coast` seconds. */
  function Overrun(c: Config, gap: real, coast: real): real {
    Times(TopVelocity(c, gap), Times(1.0 + c.maximumAcceleration / ASSUMED_DECELERATION, gap))
      + Times(TopVelocity(c, gap), coast)
  }

  predicate Sound(c: Config, gap: real) {
    c.maximumAcceleration >= 0.0 && c.cruisingDeceleration >= 0.0 && c.brakingDeceleration >= ASSUMED_DECELERATION
    && gap >= 0.0
  }

  const BEFORE_ZONE := RUN_LENGTH - BRAKING_BUFFER

  /** What holds at a poll, state by state. */
  ghost predicate Safe(c: Config, gap: real, p: Pod) {
    var d, v := p.motion.displacement, p.motion.velocity;
    p.coasted >= 0.0 &&
    match p.state
    case Accelerating => p.coasted == 0.0 && 0.0 <= v < MAXIMUM_VELOCITY && ShortOf(BEFORE_ZONE, d, v)
    case Cruising => p.coasted == 0.0 && v <= TopVelocity(c, gap) && ShortOf(BEFORE_ZONE, d, v)
    case PreBraking | FailurePreBraking =>
      v <= TopVelocity(c, gap) && ShortOf(BEFORE_ZONE + Overrun(c, gap, p.coasted), d, v)
    case NominalBraking | FailureBraking => ShortOf(RUN_LENGTH, d, v)
    case FailureStopped | Finished | Invalid | Off => d < RUN_LENGTH
    case _ => p.coasted == 0.0 && d == 0.0 && v == 0.0
  }

  /** What holds at any time before the next poll. */
  ghost predicate SafeBetween(c: Config, gap: real, p: Pod) {
    var d, v := p.motion.displacement, p.motion.velocity;
    p.coasted >= 0.0 &&
    match p.state
    case Accelerating | Cruising | PreBraking | FailurePreBraking =>
      && (!Coasts(p.state) ==> p.coasted == 0.0) && (p.state == Accelerating ==> v >= 0.0)
      && v <= TopVelocity(c, gap) && ShortOf(BEFORE_ZONE + Overrun(c, gap, p.coasted), d, v)
    case NominalBraking | FailureBraking => ShortOf(RUN_LENGTH, d, v)
    case FailureStopped | Finished | Invalid | Off => d < RUN_LENGTH
    case _ => p.coasted == 0.0 && d == 0.0 && v == 0.0
  }

  lemma OverrunGrows(c: Config, gap: real, coast: real, t: real)
    requires Sound(c, gap) && t >= 0.0
    ensures TopVelocity(c, gap) >= MAXIMUM_VELOCITY
    ensures Overrun(c, gap, coast + t) == Overrun(c, gap, coast) + Times(TopVelocity(c, gap), t)
    ensures Overrun(c, gap, coast + t) >= Overrun(c, gap, coast)
    ensures Overrun(c, gap, t) >= 0.0
  {
    TimesNonNegative(c.maximumAcceleration, gap);
    TimesNonNegative(TopVelocity(c, gap), t);
    TimesNonNegative(1.0 + c.maximumAcceleration / ASSUMED_DECELERATION, gap);
    TimesNonNegative(TopVelocity(c, gap), Times(1.0 + c.maximumAcceleration / ASSUMED_DECELERATION, gap));
    Distribute(TopVelocity(c, gap), coast, t);
  }

  lemma Distribute(a: real, b: real, c: real)
    ensures Times(a, b + c) == Times(a, b) + Times(a, c)
  {
  }

  /** Coasting that leaves the pod moving forward: the braking distance takes back what `rate` spends. */
  lemma CoastForward(d: real, v: real, rate: real, t: real, top: real)
    requires 0.0 <= v <= top && rate >= 0.0 && t >= 0.0 && 0.0 <= VelocityAt(v, -rate, t) <= v
    ensures PositionAt(d, v, -rate, t) + BrakingDistance(VelocityAt(v, -rate, t))
         <= d + BrakingDistance(v) + Times(top, t)
  {
    hide PositionAt, VelocityAt, BrakingDistance, Square, Times;
    var v', share := VelocityAt(v, -rate, t), rate / ASSUMED_DECELERATION;
    EnergyStep(d, v, rate, t);
    var path := Times(t, (v + v') / 2.0);
    Regroup(share, t, (v + v') / 2.0);
    TimesNonNegative(t, (v + v') / 2.0);
    TimesNonNegative(share, path);
    LessShare(share, path);
    TimesMonotone(t, t, (v + v') / 2.0, top);
    Commute(t, top);
  }

  lemma Slower(v: real, rate: real, t: real)
    requires rate >= 0.0 && t >= 0.0
    ensures VelocityAt(v, -rate, t) <= v
  {
    TimesNonNegative(rate, t);
    Negate(rate, t);
  }

  lemma NotFurther(d: real, v: real, rate: real, t: real, top: real)
    requires rate >= 0.0 && t >= 0.0 && v <= top
    ensures PositionAt(d, v, -rate, t) <= d + Times(top, t)
  {
    SquareNonNegative(t);
    TimesNonNegative(rate, Square(t));
    Negate(rate, Square(t));
    TimesUpTo(v, top, t);
  }

  /** Coasting for `t` moves the stopping point by at most `top * t`. */
  lemma CoastStep(limit: real, d: real, v: real, rate: real, t: real, top: real)
    requires ShortOf(limit, d, v) && rate >= 0.0 && t >= 0.0 && v <= top && top >= 0.0
    ensures VelocityAt(v, -rate, t) <= v
    ensures ShortOf(limit + Times(top, t), PositionAt(d, v, -rate, t), VelocityAt(v, -rate, t))
  {
    BrakingDistanceIs(v);
    hide PositionAt, VelocityAt, BrakingDistance, Square, Times;
    Slower(v, rate, t);
    NotFurther(d, v, rate, t, top);
    if VelocityAt(v, -rate, t) >= 0.0 {
      CoastForward(d, v, rate, t, top);
    }
  }

  lemma Negate(a: real, b: real)
    ensures Times(-a, b) == -Times(a, b)
  {
  }

  lemma Commute(a: real, b: real)
    ensures Times(a, b) == Times(b, a)
  {
  }

  lemma LessShare(share: real, a: real)
    requires Times(share, a) >= 0.0
    ensures Times(1.0 - share, a) <= a
  {
  }

  lemma TimesUpTo(a: real, b: real, t: real)
    requires a <= b && t >= 0.0
    ensures Times(a, t) <= Times(b, t)
  {
    TimesNonNegative(b - a, t);
  }

  /** Accelerating for at most a gap moves the stopping point by at most the overrun. */
  lemma SpeedUpStep(c: Config, gap: real, d: real, v: real, t: real)
    requires Sound(c, gap) && ShortOf(BEFORE_ZONE, d, v) && 0.0 <= v <= MAXIMUM_VELOCITY && 0.0 <= t <= gap
    ensures var a := c.maximumAcceleration;
      && 0.0 <= VelocityAt(v, a, t) <= TopVelocity(c, gap)
      && ShortOf(BEFORE_ZONE + Overrun(c, gap, 0.0), PositionAt(d, v, a, t), VelocityAt(v, a, t))
  {
    var a, top := c.maximumAcceleration, TopVelocity(c, gap);
    SpeedsUp(c, gap, v, t);
    hide BrakingDistance, Square, PositionAt, VelocityAt, Times, TopVelocity;
    var v', share := VelocityAt(v, a, t), 1.0 + a / ASSUMED_DECELERATION;
    var middle := (v + v') / 2.0;
    EnergyStep(d, v, -a, t);
    assert -(-a) == a;
    GainAlgebra(a / ASSUMED_DECELERATION, t, middle);
    assert -a / ASSUMED_DECELERATION == -(a / ASSUMED_DECELERATION);
    SharePositive(share, t);
    TimesMonotone(share, share, t, gap);
    TimesMonotone(middle, top, Times(share, t), Times(share, gap));
    NoTime(top);
  }

  lemma SpeedsUp(c: Config, gap: real, v: real, t: real)
    requires Sound(c, gap) && 0.0 <= v <= MAXIMUM_VELOCITY && 0.0 <= t <= gap
    ensures 0.0 <= v <= VelocityAt(v, c.maximumAcceleration, t) <= TopVelocity(c, gap)
  {
    TimesMonotone(c.maximumAcceleration, c.maximumAcceleration, t, gap);
  }

  lemma SharePositive(share: real, t: real)
    requires share >= 0.0 && t >= 0.0
    ensures Times(share, t) >= 0.0
  {
  }

  lemma NoTime(a: real)
    ensures Times(a, 0.0) == 0.0
  {
  }

  lemma GainAlgebra(a: real, t: real, m: real)
    ensures -Times(Times(-a - 1.0, t), m) == Times(m, Times(1.0 + a, t))
  {
  }

  /** Between polls. */
  lemma MoveKeepsSafe(c: Config, gap: real, p: Pod, t: real)
    requires Sound(c, gap) && Safe(c, gap, p) && 0.0 <= t <= gap
    ensures SafeBetween(c, gap, Moved(c, p, t))
  {
    var d, v := p.motion.displacement, p.motion.velocity;
    OverrunGrows(c, gap, p.coasted, t);
    OverrunGrows(c, gap, 0.0, t);
    OverrunGrows(c, gap, 0.0, 0.0);
    hide PositionAt, VelocityAt, ShortOf, Overrun, TopVelocity;
    match p.state
    case Accelerating =>
      SpeedUpStep(c, gap, d, v, t);
    case Cruising =>
      CruiseStep(c, gap, d, v, t);
    case PreBraking | FailurePreBraking =>
      CoastStep(BEFORE_ZONE + Overrun(c, gap, p.coasted), d, v, c.cruisingDeceleration, t, TopVelocity(c, gap));
    case NominalBraking | FailureBraking =>
      PhaseKeepsShort(RUN_LENGTH, d, v, c.brakingDeceleration, t);
    case _ =>
  }

  lemma CruiseStep(c: Config, gap: real, d: real, v: real, t: real)
    requires Sound(c, gap) && ShortOf(BEFORE_ZONE, d, v) && v <= TopVelocity(c, gap) && 0.0 <= t <= gap
    ensures var a := -c.cruisingDeceleration;
      && VelocityAt(v, a, t) <= TopVelocity(c, gap)
      && ShortOf(BEFORE_ZONE + Overrun(c, gap, 0.0), PositionAt(d, v, a, t), VelocityAt(v, a, t))
  {
    var top, share := TopVelocity(c, gap), 1.0 + c.maximumAcceleration / ASSUMED_DECELERATION;
    OverrunGrows(c, gap, 0.0, 0.0);
    CoastStep(BEFORE_ZONE, d, v, c.cruisingDeceleration, t, top);
    hide BrakingDistance, PositionAt, VelocityAt, TopVelocity;
    TimesMonotone(1.0, share, t, gap);
    TimesMonotone(top, top, Times(1.0, t), Times(share, gap));
    assert Times(1.0, t) == t && Times(top, 0.0) == 0.0;
  }

  lemma PollWhenDriven(c: Config, gap: real, p: Pod, r: Registers)
    requires SafeBetween(c, gap, p) && Sees(r, p.motion) && p.state in {Accelerating, Cruising}
    ensures Safe(c, gap, p.(state := StateMachine.After(p.state, r)))
  {
    BrakingDistanceIs(p.motion.velocity);
    hide Emergency, Overrun, TopVelocity, BrakingDistance;
  }

  lemma PollWhenCoasting(c: Config, gap: real, p: Pod, r: Registers)
    requires SafeBetween(c, gap, p) && Coasts(p.state) && Overrun(c, gap, p.coasted) <= BRAKING_BUFFER
    ensures Safe(c, gap, p.(state := StateMachine.After(p.state, r)))
  {
    hide Emergency, Overrun, TopVelocity, BrakingDistance;
  }

  lemma PollWhenBraking(c: Config, gap: real, p: Pod, r: Registers)
    requires SafeBetween(c, gap, p) && p.state !in {Accelerating, Cruising, PreBraking, FailurePreBraking}
    ensures Safe(c, gap, p.(state := StateMachine.After(p.state, r)))
  {
    BrakingDistanceIs(p.motion.velocity);
    assert Square(0.0) == 0.0;
    hide Emergency, Overrun, TopVelocity, BrakingDistance, ModulesInitialised, ModulesReady;
  }

  /** A poll that sees the true motion. */
  lemma PollKeepsSafe(c: Config, gap: real, p: Pod, r: Registers)
    requires SafeBetween(c, gap, p) && Sees(r, p.motion) && Overrun(c, gap, p.coasted) <= BRAKING_BUFFER
    ensures Safe(c, gap, p.(state := StateMachine.After(p.state, r)))
  {
    hide Safe, SafeBetween, Sees, Overrun, StateMachine.After;
    if p.state in {Accelerating, Cruising} {
      PollWhenDriven(c, gap, p, r);
    } else if Coasts(p.state) {
      PollWhenCoasting(c, gap, p, r);
    } else {
      PollWhenBraking(c, gap, p, r);
    }
  }

  /** Stopping over whole runs of the state machine, emergencies included: polled often
      enough, and coasting briefly enough before high power is seen off, the pod is short
      of the end of the run at every time. The condition is `Overrun`: what one gap at
      full acceleration and the coasting can add must fit in the buffer. */
  lemma {:induction false} RunStopsInTime(c: Config, ticks: seq<Tick>, gap: real, t: real)
    requires Sound(c, gap) && WellPolled(c, ticks, gap) && 0.0 <= t <= gap
    requires Overrun(c, gap, Moved(c, Ride(c, ticks), t).coasted) <= BRAKING_BUFFER
    ensures Safe(c, gap, Ride(c, ticks))
    ensures Moved(c, Ride(c, ticks), t).motion.displacement < RUN_LENGTH
  {
    hide Overrun, Advance, Safe, SafeBetween, Sees, StateMachine.After;
    var p := Ride(c, ticks);
    if ticks == [] {
      RestIsSafe(c, gap);
    } else {
      var init, tick := ticks[..|ticks| - 1], ticks[|ticks| - 1];
      CoastingAddsUp(c, gap, p, t);
      RunStopsInTime(c, init, gap, tick.seconds);
      MoveKeepsSafe(c, gap, Ride(c, init), tick.seconds);
      PollKeepsSafe(c, gap, Moved(c, Ride(c, init), tick.seconds), tick.registers);
    }
    MoveKeepsSafe(c, gap, p, t);
    BetweenIsShort(c, gap, Moved(c, p, t));
  }

  lemma RestIsSafe(c: Config, gap: real)
    ensures Safe(c, gap, Ride(c, []))
  {
  }

  lemma CoastingAddsUp(c: Config, gap: real, p: Pod, t: real)
    requires Sound(c, gap) && t >= 0.0
    ensures Overrun(c, gap, p.coasted) <= Overrun(c, gap, Moved(c, p, t).coasted)
  {
    OverrunGrows(c, gap, p.coasted, t);
    OverrunGrows(c, gap, p.coasted, 0.0);
  }

  lemma BetweenIsShort(c: Config, gap: real, p: Pod)
    requires SafeBetween(c, gap, p) && Overrun(c, gap, p.coasted) <= BRAKING_BUFFER
    ensures p.motion.displacement < RUN_LENGTH
  {
    BrakingDistanceIs(p.motion.velocity);
    hide BrakingDistance, Overrun, TopVelocity;
  }

  /** The ride follows the state machine's run over its polls. */
  lemma {:induction false} RideFollowsStateMachine(c: Config, ticks: seq<Tick>)
    ensures Ride(c, ticks).state == StateMachine.State(Polls(ticks))
  {
    if ticks != [] {
      hide Advance, StateMachine.After;
      RideFollowsStateMachine(c, ticks[..|ticks| - 1]);
      assert Polls(ticks)[..|ticks| - 1] == Polls(ticks[..|ticks| - 1]);
    }
  }

  function Polls(ticks: seq<Tick>): (rs: seq<Registers>)
    ensures |rs| == |ticks|
  {
    seq(|ticks|, k requires 0 <= k < |ticks| => ticks[k].registers)
  }
}
