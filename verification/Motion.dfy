/** Dead reckoning: the trapezoid integrators of navigation, the simulated
    trajectory, and the kinematics that both are compared with. */
module Motion {
  import opened Arithmetic
  import opened PodData

  const MICROS_PER_SECOND := 1000000.0

  function Seconds(micros: int): real {
    micros as real / MICROS_PER_SECOND
  }

  // -------------------------------------------------------------- kinematics

  function VelocityAt(v0: real, a: real, t: real): real {
    v0 + Times(a, t)
  }

  function PositionAt(d0: real, v0: real, a: real, t: real): real {
    d0 + Times(v0, t) + Times(a, Square(t)) / 2.0
  }

  /** Constant acceleration over `t`, then over `dt`, is constant acceleration over `t + dt`. */
  lemma ComposeMotion(d0: real, v0: real, a: real, t: real, dt: real)
    ensures VelocityAt(VelocityAt(v0, a, t), a, dt) == VelocityAt(v0, a, t + dt)
    ensures PositionAt(PositionAt(d0, v0, a, t), VelocityAt(v0, a, t), a, dt) == PositionAt(d0, v0, a, t + dt)
  {
  }

  /** The trapezoid under a straight velocity line is the exact displacement. */
  lemma TrapezoidOfLine(d0: real, v0: real, a: real, t: real, dt: real)
    ensures PositionAt(d0, v0, a, t) + Times((VelocityAt(v0, a, t + dt) + VelocityAt(v0, a, t)) / 2.0, dt)
         == PositionAt(d0, v0, a, t + dt)
  {
  }

  // ------------------------------------------------------------- integrators

  /** data::DataPoint<nav_t>; the timestamp is a 32-bit microsecond counter. */
  datatype DataPoint = DataPoint(timestamp: nat, value: real)

  /** Unsigned 32-bit difference of two timestamps. */
  function Elapsed(later: nat, earlier: nat): nat {
    (later - earlier) % WORD
  }

  lemma ElapsedIsTrueGap(t0: nat, t1: nat)
    requires t0 <= t1 < t0 + WORD
    ensures Elapsed(t1 % WORD, t0 % WORD) == t1 - t0
  {
    var q0, q1 := t0 / WORD, t1 / WORD;
    assert t0 == q0 * WORD + t0 % WORD && t1 == q1 * WORD + t1 % WORD;
    assert q1 == q0 || q1 == q0 + 1;
  }

  function Area(previous: DataPoint, point: DataPoint): real {
    Times((point.value + previous.value) / 2.0, Seconds(Elapsed(point.timestamp, previous.timestamp)))
  }

  /** `gained` is the area under the straight line from `a` to `b` over so many millionths of a second. */
  ghost predicate Trapezoid(gained: real, a: real, b: real, micros: int) {
    2000000.0 * gained == (a + b) * micros as real
  }

  lemma AreaIsTrapezoid(previous: DataPoint, point: DataPoint)
    ensures Trapezoid(Area(previous, point), previous.value, point.value,
                      (point.timestamp - previous.timestamp) % 0x1_0000_0000)
  {
    var gap := Elapsed(point.timestamp, previous.timestamp);
    assert gap == (point.timestamp - previous.timestamp) % 0x1_0000_0000;
    MicrosOfSeconds(point.value + previous.value, gap);
    hide Times, Seconds, Elapsed;
  }

  lemma MicrosOfSeconds(a: real, micros: int)
    ensures 1000000.0 * Times(a, Seconds(micros)) == a * micros as real
    ensures 1000000.0 * Times(a / 2.0, Seconds(micros)) == a * micros as real / 2.0
  {
  }

  /** The variable an integrator writes through its pointer. */
  class Output {
    var point: DataPoint

    constructor (timestamp: nat, value: real)
      ensures point == DataPoint(timestamp, value)
    {
      point := DataPoint(timestamp, value);
    }
  }

  class Integrator {
    var previousPoint: DataPoint
    const output: Output
    var initialised: bool

    constructor (output: Output)
      ensures this.output == output && !initialised
    {
      previousPoint := DataPoint(0, 0.0);
      this.output := output;
      initialised := false;
    }

    method Update(point: DataPoint) returns (result: DataPoint)
      modifies this`previousPoint, this`initialised, output
      ensures initialised && previousPoint == point && result == output.point
      ensures output.point == DataPoint(point.timestamp, old(output.point.value)
                + if old(initialised) then Area(old(previousPoint), point) else 0.0)
      ensures var gained := output.point.value - old(output.point.value);
        if old(initialised)
        then Trapezoid(gained, old(previousPoint.value), point.value,
                       (point.timestamp - old(previousPoint.timestamp)) % 0x1_0000_0000)
        else gained == 0.0
    {
      AreaIsTrapezoid(previousPoint, point);
      hide Trapezoid;
      if !initialised {
        previousPoint := point;
        initialised := true;
      }
      var area := Area(previousPoint, point);
      assert Times((point.value + point.value) / 2.0, 0.0) == 0.0;
      output.point := DataPoint(point.timestamp, output.point.value + area);
      previousPoint := point;
      result := output.point;
    }
  }

  /** The two chained integrators: acceleration to velocity to displacement. */
  datatype Reckoning = Reckoning(
    started: bool, previousAcceleration: DataPoint, previousVelocity: DataPoint,
    velocity: DataPoint, displacement: DataPoint)

  /** One pass of a fused acceleration through both integrators. */
  function Reckon(k: Reckoning, a: DataPoint): Reckoning {
    var v := DataPoint(a.timestamp, k.velocity.value + if k.started then Area(k.previousAcceleration, a) else 0.0);
    var d := DataPoint(v.timestamp, k.displacement.value + if k.started then Area(k.previousVelocity, v) else 0.0);
    Reckoning(true, a, v, v, d)
  }

  /** The part of navigation that integrates: the second integrator reads what the first has written. */
  class DeadReckoner {
    const velocity: Output
    const displacement: Output
    const accelerationIntegrator: Integrator
    const velocityIntegrator: Integrator

    ghost predicate Valid()
      reads accelerationIntegrator, velocityIntegrator
    {
      && velocity != displacement
      && accelerationIntegrator != velocityIntegrator
      && accelerationIntegrator.output == velocity
      && velocityIntegrator.output == displacement
      && accelerationIntegrator.initialised == velocityIntegrator.initialised
    }

    ghost function Parts(): set<object> {
      {velocity, displacement, accelerationIntegrator, velocityIntegrator}
    }

    ghost function Value(): Reckoning
      reads Parts()
    {
      Reckoning(accelerationIntegrator.initialised, accelerationIntegrator.previousPoint,
                velocityIntegrator.previousPoint, velocity.point, displacement.point)
    }

    constructor ()
      ensures Valid() && fresh(Parts())
      ensures !Value().started && Value().velocity.value == Value().displacement.value == 0.0
    {
      var v := new Output(0, 0.0);
      var d := new Output(0, 0.0);
      velocity, displacement := v, d;
      accelerationIntegrator := new Integrator(v);
      velocityIntegrator := new Integrator(d);
    }

    method Update(acceleration: DataPoint)
      requires Valid()
      modifies Parts()
      ensures Valid() && Value() == Reckon(old(Value()), acceleration)
    {
      var v := accelerationIntegrator.Update(acceleration);
      var d := velocityIntegrator.Update(velocity.point);
    }
  }

  /** Fused acceleration at a true time in microseconds; the data point carries its low 32 bits. */
  datatype Sample = Sample(micros: nat, acceleration: real)

  function PointOf(s: Sample): DataPoint {
    DataPoint(s.micros % WORD, s.acceleration)
  }

  function ReckonAll(k: Reckoning, samples: seq<Sample>): Reckoning {
    if samples == [] then k
    else Reckon(ReckonAll(k, samples[..|samples| - 1]), PointOf(samples[|samples| - 1]))
  }

  /** Time of the last sample, or the start time. */
  function LastMicros(start: nat, samples: seq<Sample>): nat {
    if samples == [] then start else samples[|samples| - 1].micros
  }

  /** Samples in time order after `start`, less than 2^32 microseconds apart, within [lo, hi]. */
  ghost predicate Paced(start: nat, samples: seq<Sample>, lo: real, hi: real) {
    samples == [] ||
    (var init, s := samples[..|samples| - 1], samples[|samples| - 1];
     && Paced(start, init, lo, hi)
     && LastMicros(start, init) <= s.micros < LastMicros(start, init) + WORD
     && lo <= s.acceleration <= hi)
  }

  /** Both integrators have taken a sample at true time `micros`, within [lo, hi]. */
  ghost predicate ReckonedAt(k: Reckoning, micros: nat, lo: real, hi: real) {
    && k.started
    && k.previousAcceleration.timestamp == micros % WORD
    && lo <= k.previousAcceleration.value <= hi
    && k.previousVelocity == k.velocity
    && k.velocity.timestamp == micros % WORD
  }

  /** The first sample only sets the starting point: velocity and displacement stay. */
  lemma FirstSample(k: Reckoning, s: Sample)
    requires !k.started
    ensures var r := Reckon(k, PointOf(s));
      && ReckonedAt(r, s.micros, s.acceleration, s.acceleration)
      && r.velocity.value == k.velocity.value
      && r.displacement.value == k.displacement.value
  {
  }

  lemma StepBounds(d: real, v: real, a0: real, a1: real, lo: real, hi: real, d0: real, v0: real, t: real, dt: real)
    requires t >= 0.0 && dt >= 0.0 && lo <= a0 <= hi && lo <= a1 <= hi
    requires VelocityAt(v0, lo, t) <= v <= VelocityAt(v0, hi, t)
    requires PositionAt(d0, v0, lo, t) <= d <= PositionAt(d0, v0, hi, t)
    ensures var v' := v + Times((a1 + a0) / 2.0, dt);
      && VelocityAt(v0, lo, t + dt) <= v' <= VelocityAt(v0, hi, t + dt)
      && PositionAt(d0, v0, lo, t + dt) <= d + Times((v' + v) / 2.0, dt) <= PositionAt(d0, v0, hi, t + dt)
  {
    var v' := v + Times((a1 + a0) / 2.0, dt);
    assert Times(lo, dt) <= Times((a1 + a0) / 2.0, dt) <= Times(hi, dt) by {
      TimesBetween(lo, (a1 + a0) / 2.0, hi, dt);
    }
    assert Times(lo, t + dt) == Times(lo, t) + Times(lo, dt) && Times(hi, t + dt) == Times(hi, t) + Times(hi, dt);
    TrapezoidOfLine(d0, v0, lo, t, dt);
    TrapezoidOfLine(d0, v0, hi, t, dt);
    hide Times, Square;
    TimesBetween((VelocityAt(v0, lo, t + dt) + VelocityAt(v0, lo, t)) / 2.0, (v' + v) / 2.0,
                 (VelocityAt(v0, hi, t + dt) + VelocityAt(v0, hi, t)) / 2.0, dt);
  }

  lemma TimesBetween(lo: real, x: real, hi: real, t: real)
    requires lo <= x <= hi && t >= 0.0
    ensures Times(lo, t) <= Times(x, t) <= Times(hi, t)
  {
    TimesNonNegative(x - lo, t);
    TimesNonNegative(hi - x, t);
  }

  /** Whatever the sample times, bounds on the acceleration bound the reckoned
      velocity and displacement by the kinematics of the bounds. */
  lemma {:induction false} ReckoningBounds(k: Reckoning, start: nat, samples: seq<Sample>, lo: real, hi: real)
    requires ReckonedAt(k, start, lo, hi) && Paced(start, samples, lo, hi)
    ensures var r, t := ReckonAll(k, samples), Seconds(LastMicros(start, samples) - start);
      && ReckonedAt(r, LastMicros(start, samples), lo, hi)
      && t >= 0.0
      && VelocityAt(k.velocity.value, lo, t) <= r.velocity.value <= VelocityAt(k.velocity.value, hi, t)
      && PositionAt(k.displacement.value, k.velocity.value, lo, t) <= r.displacement.value
         <= PositionAt(k.displacement.value, k.velocity.value, hi, t)
  {
    var d0, v0 := k.displacement.value, k.velocity.value;
    if samples == [] {
    } else {
      var init, s := samples[..|samples| - 1], samples[|samples| - 1];
      ReckoningBounds(k, start, init, lo, hi);
      hide Times, Square;
      var r, m := ReckonAll(k, init), LastMicros(start, init);
      ElapsedIsTrueGap(m, s.micros);
      StepBounds(r.displacement.value, r.velocity.value, r.previousAcceleration.value, s.acceleration, lo, hi,
                 d0, v0, Seconds(m - start), Seconds(s.micros - m));
      assert Seconds(s.micros - start) == Seconds(m - start) + Seconds(s.micros - m);
    }
  }

  lemma {:induction false} PacedFrom(samples: seq<Sample>, lo: real, hi: real)
    requires samples != []
    requires forall k :: 0 <= k < |samples| ==> lo <= samples[k].acceleration <= hi
    requires forall k :: 0 < k < |samples| ==> samples[k - 1].micros <= samples[k].micros < samples[k - 1].micros + WORD
    ensures Paced(samples[0].micros, samples[1..], lo, hi)
  {
    if |samples| > 1 {
      var init := samples[..|samples| - 1];
      PacedFrom(init, lo, hi);
      assert samples[1..][..|samples| - 2] == init[1..];
    }
  }

  lemma {:induction false} ReckonAllFrom(k: Reckoning, samples: seq<Sample>)
    requires samples != []
    ensures ReckonAll(k, samples) == ReckonAll(Reckon(k, PointOf(samples[0])), samples[1..])
  {
    hide Reckon;
    if |samples| > 1 {
      var init := samples[..|samples| - 1];
      ReckonAllFrom(k, init);
      assert samples[1..][..|samples| - 2] == init[1..];
    } else {
      assert samples[..0] == [] && samples[1..] == [];
    }
  }

  /** From the first sample on: bounds on the samples bound velocity and displacement. */
  lemma {:induction false} ReckoningFromFirst(k: Reckoning, samples: seq<Sample>, lo: real, hi: real)
    requires !k.started && samples != []
    requires forall i :: 0 <= i < |samples| ==> lo <= samples[i].acceleration <= hi
    requires forall i :: 0 < i < |samples| ==> samples[i - 1].micros <= samples[i].micros < samples[i - 1].micros + WORD
    ensures var r, d0, v0 := ReckonAll(k, samples), k.displacement.value, k.velocity.value;
      var t := Seconds(samples[|samples| - 1].micros as int - samples[0].micros as int);
      && VelocityAt(v0, lo, t) <= r.velocity.value <= VelocityAt(v0, hi, t)
      && PositionAt(d0, v0, lo, t) <= r.displacement.value <= PositionAt(d0, v0, hi, t)
  {
    PacedFrom(samples, lo, hi);
    ReckonAllFrom(k, samples);
    FirstSample(k, samples[0]);
    var first := Reckon(k, PointOf(samples[0]));
    assert ReckonedAt(first, samples[0].micros, lo, hi);
    assert first.velocity.value == k.velocity.value && first.displacement.value == k.displacement.value;
    hide Reckon, ReckonAll, ReckonedAt, Paced, VelocityAt, PositionAt;
    ReckoningBounds(first, samples[0].micros, samples[1..], lo, hi);
    assert LastMicros(samples[0].micros, samples[1..]) == samples[|samples| - 1].micros;
  }

  // ------------------------------------------------------ simulated trajectory

  datatype Config = Config(maximumAcceleration: real, brakingDeceleration: real, cruisingDeceleration: real)

  datatype Trajectory = Trajectory(acceleration: real, velocity: real, displacement: real)

  predicate Moving(s: PodState) {
    s in {Accelerating, Cruising, PreBraking, FailurePreBraking, NominalBraking, FailureBraking}
  }

  function AccelerationIn(c: Config, s: PodState): real {
    match s
    case Accelerating => c.maximumAcceleration
    case Cruising => -c.cruisingDeceleration
    case PreBraking => -c.cruisingDeceleration
    case FailurePreBraking => -c.cruisingDeceleration
    case NominalBraking => -c.brakingDeceleration
    case FailureBraking => -c.brakingDeceleration
    case _ => 0.0
  }

  /** Trajectory after `dt` seconds in state `s`: at rest, or moved by the kinematics. */
  function Advance(c: Config, s: PodState, j: Trajectory, dt: real): Trajectory {
    var a := AccelerationIn(c, s);
    if Moving(s) then Trajectory(a, VelocityAt(j.velocity, a, dt), PositionAt(j.displacement, j.velocity, a, dt))
    else Trajectory(0.0, 0.0, j.displacement)
  }

  /** From one trajectory to the next at acceleration `a` over so many millionths of a second: the
      displacement grows by the average velocity over that time. */
  ghost predicate MovesTo(from: Trajectory, to: Trajectory, a: real, micros: int) {
    && to.acceleration == a
    && 1000000.0 * (to.velocity - from.velocity) == a * micros as real
    && 2000000.0 * (to.displacement - from.displacement) == (from.velocity + to.velocity) * micros as real
  }

  lemma AdvanceMoves(c: Config, s: PodState, j: Trajectory, micros: int)
    requires Moving(s)
    ensures MovesTo(j, Advance(c, s, j, Seconds(micros)), AccelerationIn(c, s), micros)
  {
    var a, t := AccelerationIn(c, s), Seconds(micros);
    var v := VelocityAt(j.velocity, a, t);
    MicrosOfSeconds(a, micros);
    MicrosOfSeconds(j.velocity + v, micros);
    AverageVelocity(j.displacement, j.velocity, a, t);
    hide Seconds, Times, Square, AccelerationIn;
  }

  lemma AverageVelocity(d: real, v: real, a: real, t: real)
    ensures PositionAt(d, v, a, t) == d + Times((v + VelocityAt(v, a, t)) / 2.0, t)
  {
  }

  /** Seconds between two polls, by the difference of unsigned 64-bit times. */
  function Passed(earlier: nat, later: nat): real {
    Seconds((later - earlier) % LONG_WORD)
  }

  class FakeTrajectory {
    const config: Config
    var lastUpdate: nat
    var trajectory: Trajectory

    constructor (config: Config, now: nat)
      ensures this.config == config && lastUpdate == now && trajectory == Trajectory(0.0, 0.0, 0.0)
    {
      this.config, lastUpdate, trajectory := config, now, Trajectory(0.0, 0.0, 0.0);
    }

    /** `now` is the time of day in microseconds; it may have been set back. */
    method GetTrajectory(state: PodState, now: nat) returns (r: Trajectory)
      modifies this`lastUpdate, this`trajectory
      ensures lastUpdate == now && r == trajectory
      ensures trajectory == Advance(config, state, old(trajectory), Passed(old(lastUpdate), now))
      ensures var micros := (now - old(lastUpdate)) % 0x1_0000_0000_0000_0000;
        && (state == Accelerating ==> MovesTo(old(trajectory), r, config.maximumAcceleration, micros))
        && (state in {Cruising, PreBraking, FailurePreBraking} ==>
              MovesTo(old(trajectory), r, -config.cruisingDeceleration, micros))
        && (state in {NominalBraking, FailureBraking} ==>
              MovesTo(old(trajectory), r, -config.brakingDeceleration, micros))
        && (state !in {Accelerating, Cruising, PreBraking, FailurePreBraking, NominalBraking, FailureBraking} ==>
              r == Trajectory(0.0, 0.0, old(trajectory.displacement)))
    {
      if Moving(state) {
        AdvanceMoves(config, state, trajectory, (now - lastUpdate) % LONG_WORD);
      }
      hide MovesTo, Seconds;
      var secondsPassed := Seconds((now - lastUpdate) % LONG_WORD);
      lastUpdate := now;
      var acceleration, velocity, displacement
        := trajectory.acceleration, trajectory.velocity, trajectory.displacement;
      match state {
        case Idle | PreCalibrating | Calibrating | PreReady | Ready | FailureStopped | Finished | Invalid | Off =>
          trajectory := Trajectory(0.0, 0.0, displacement);
          return trajectory;
        case Accelerating =>
          acceleration := config.maximumAcceleration;
        case Cruising | PreBraking | FailurePreBraking =>
          acceleration := -config.cruisingDeceleration;
        case NominalBraking | FailureBraking =>
          acceleration := -config.brakingDeceleration;
      }
      displacement := displacement + Times(velocity, secondsPassed);
      displacement := displacement + Times(0.5 * acceleration, Square(secondsPassed));
      velocity := velocity + Times(acceleration, secondsPassed);
      HalfOut(acceleration, Square(secondsPassed));
      trajectory := Trajectory(acceleration, velocity, displacement);
      r := trajectory;
    }
  }

  lemma HalfOut(a: real, b: real)
    ensures Times(0.5 * a, b) == Times(a, b) / 2.0
  {
  }

  /** Polls at the given times, all in state `s`. */
  function PollAll(c: Config, s: PodState, j: Trajectory, start: nat, times: seq<nat>): Trajectory {
    if times == [] then j
    else
      var init := times[..|times| - 1];
      Advance(c, s, PollAll(c, s, j, start, init), Passed(LastTime(start, init), times[|times| - 1]))
  }

  /** Times in order from `start` on, less than 2^64 microseconds apart. */
  ghost predicate Ordered(start: nat, times: seq<nat>) {
    times == [] ||
    (var init, t := times[..|times| - 1], times[|times| - 1];
     Ordered(start, init) && LastTime(start, init) <= t < LastTime(start, init) + LONG_WORD)
  }

  function LastTime(start: nat, times: seq<nat>): nat {
    if times == [] then start else times[|times| - 1]
  }

  lemma PassedInOrder(start: nat, earlier: nat, later: nat)
    requires earlier <= later < earlier + LONG_WORD
    ensures Passed(earlier, later) == Seconds(later - start) - Seconds(earlier - start)
  {
    assert (later - earlier) % LONG_WORD == later - earlier;
  }

  /** While the clock is not set back, the simulated trajectory depends on the elapsed
      time, not on when it was polled. */
  lemma {:induction false} PollingIndependent(c: Config, s: PodState, j: Trajectory, start: nat, times: seq<nat>)
    requires Moving(s) && Ordered(start, times)
    ensures var r, a := PollAll(c, s, j, start, times), AccelerationIn(c, s);
      var t := Seconds(LastTime(start, times) - start);
      && r.velocity == VelocityAt(j.velocity, a, t)
      && r.displacement == PositionAt(j.displacement, j.velocity, a, t)
  {
    var a := AccelerationIn(c, s);
    if times != [] {
      var init := times[..|times| - 1];
      PollingIndependent(c, s, j, start, init);
      PassedInOrder(start, LastTime(start, init), times[|times| - 1]);
      hide VelocityAt, PositionAt, Passed, Seconds;
      var t, dt := Seconds(LastTime(start, init) - start), Passed(LastTime(start, init), times[|times| - 1]);
      ComposeMotion(j.displacement, j.velocity, a, t, dt);
    }
  }

  /** A clock set back, by however little, makes the trajectory jump ahead by nearly 2^64 microseconds. */
  lemma ClockSetBack(earlier: nat, later: nat)
    requires later < earlier < LONG_WORD
    ensures Passed(earlier, later) == Seconds(LONG_WORD) - Seconds(earlier - later)
  {
    assert (later - earlier) % LONG_WORD == LONG_WORD + later - earlier;
  }

  /** Dead reckoning is exact while the pod stays in one moving state: the chained
      integrators, sampling the trajectory's acceleration whenever they like, end
      with its velocity and displacement, however often either was polled. */
  lemma {:induction false} DeadReckoningExact(
      k: Reckoning, c: Config, s: PodState, j: Trajectory, start: nat, samples: seq<Sample>, times: seq<nat>)
    requires Moving(s) && ReckonedAt(k, start, AccelerationIn(c, s), AccelerationIn(c, s))
    requires k.velocity.value == j.velocity && k.displacement.value == j.displacement
    requires Paced(start, samples, AccelerationIn(c, s), AccelerationIn(c, s))
    requires Ordered(start, times) && LastMicros(start, samples) == LastTime(start, times)
    ensures var r, g := ReckonAll(k, samples), PollAll(c, s, j, start, times);
      r.velocity.value == g.velocity && r.displacement.value == g.displacement
  {
    hide VelocityAt, PositionAt;
    ReckoningBounds(k, start, samples, AccelerationIn(c, s), AccelerationIn(c, s));
    PollingIndependent(c, s, j, start, times);
  }
}
