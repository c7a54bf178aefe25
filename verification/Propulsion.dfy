/** The rpm regulation loop: regulator, state processor, and simulated controllers. */
module Propulsion {
  import opened Arithmetic

  const NUM_MOTORS := 4
  const THROTTLE_MICROS := 5000

  // --------------------------------------------------------------- regulator

  /** std::round: to the nearest integer, halves away from zero. */
  function Round(x: real): int {
    if x >= 0.0 then (x + 0.5).Floor else -(-x + 0.5).Floor
  }

  lemma RoundsToNearest(x: real)
    ensures x - 0.5 <= Round(x) as real <= x + 0.5
    ensures x - 0.5 == Round(x) as real ==> x <= 0.0
    ensures Round(x) as real == x + 0.5 ==> x >= 0.0
  {
  }

  function OptimalRpm(velocity: real): int {
    Round(0.32047 * Square(velocity) + 297.72578 * velocity + 1024.30824)
  }

  function StepSize(optimal: int, actual: int): int {
    if actual < optimal then Round(optimal as real * 0.1) else Round(optimal as real * -0.05)
  }

  /** New target for the given optimal and average rpm. */
  function Target(optimal: int, actual: int): int {
    if actual == optimal then actual
    else
      var target := actual + StepSize(optimal, actual);
      if target < 0 then 0 else target
  }

  function CalculateRpm(velocity: real, actual: int): int {
    Target(OptimalRpm(velocity), actual)
  }

  predicate Near(n: int, x: real) {
    x - 0.5 <= n as real <= x + 0.5
  }

  /** The optimal rpm is the polynomial of the velocity, to the nearest integer; at the top speed
      of 100 m/s that is 34002, and at rest 1024. */
  lemma OptimalLaw(v: real)
    ensures Near(OptimalRpm(v), 0.32047 * v * v + 297.72578 * v + 1024.30824)
    ensures OptimalRpm(0.0) == 1024 && OptimalRpm(100.0) == 34002
  {
    assert 0.32047 * v * v == 0.32047 * Square(v);
    hide Square;
    RoundsToNearest(0.32047 * Square(v) + 297.72578 * v + 1024.30824);
    assert Square(0.0) == 0.0 && Square(100.0) == 10000.0 by {
      SquaresOfEnds();
    }
  }

  lemma SquaresOfEnds()
    ensures Square(0.0) == 0.0 && Square(100.0) == 10000.0
  {
  }

  /** Below the optimal rpm the target is a tenth of it higher, above a twentieth lower, to the
      nearest integer and never negative. */
  lemma TargetLaw(optimal: int, actual: int)
    ensures actual < optimal ==> Near(Target(optimal, actual), Max(0.0, actual as real + optimal as real / 10.0))
    ensures actual == optimal ==> Target(optimal, actual) == actual
    ensures actual > optimal ==> Near(Target(optimal, actual), Max(0.0, actual as real - optimal as real / 20.0))
  {
    RoundsToNearest(optimal as real * 0.1);
    RoundsToNearest(optimal as real * -0.05);
    hide Round;
  }

  function Up(optimal: int): int {
    Round(optimal as real * 0.1)
  }

  function Down(optimal: int): int {
    Round(optimal as real * 0.05)
  }

  /** The band [opt - round(0.05 opt), opt + round(0.1 opt)]. */
  predicate InBand(optimal: int, rpm: int) {
    optimal - Down(optimal) <= rpm <= optimal + Up(optimal)
  }

  lemma OptimalAtLeastIdle(velocity: real)
    requires velocity >= 0.0
    ensures OptimalRpm(velocity) >= 1024
  {
    SquareNonNegative(velocity);
  }

  lemma StepsOf(optimal: int)
    requires optimal >= 10
    ensures Round(optimal as real * -0.05) == -Down(optimal)
    ensures 1 <= Up(optimal) && 1 <= Down(optimal) <= optimal / 10
  {
    assert optimal as real * -0.05 == -(optimal as real * 0.05);
  }

  function Iterate(optimal: int, rpm: int, n: nat): int
    decreases n
  {
    if n == 0 then rpm else Iterate(optimal, Target(optimal, rpm), n - 1)
  }

  /** Inside the band a step stays inside; outside it comes closer to the band or enters it. */
  lemma TargetTowardsBand(optimal: int, rpm: int)
    requires optimal >= 10
    ensures InBand(optimal, rpm) ==> InBand(optimal, Target(optimal, rpm))
    ensures 0 <= rpm < optimal - Down(optimal) ==>
      Target(optimal, rpm) == rpm + Up(optimal) <= optimal + Up(optimal)
    ensures rpm < 0 ==> rpm < Target(optimal, rpm) && 0 <= Target(optimal, rpm) <= optimal + Up(optimal)
    ensures rpm > optimal + Up(optimal) ==>
      Target(optimal, rpm) == rpm - Down(optimal) >= optimal - Down(optimal)
  {
    StepsOf(optimal);
  }

  /** Distance from the band: the termination measure of the regulation. */
  function Distance(optimal: int, rpm: int): nat {
    if rpm < optimal - Down(optimal) then optimal - Down(optimal) - rpm
    else if rpm > optimal + Up(optimal) then rpm - (optimal + Up(optimal))
    else 0
  }

  /** How many regulation steps it takes to reach the band. */
  function StepsToBand(optimal: int, rpm: int): nat
    requires optimal >= 10
    decreases Distance(optimal, rpm)
  {
    if InBand(optimal, rpm) then 0
    else
      StepsOf(optimal);
      TargetTowardsBand(optimal, rpm);
      1 + StepsToBand(optimal, Target(optimal, rpm))
  }

  /** The regulation is in the band exactly from step `StepsToBand` on: it gets there and never leaves. */
  lemma {:induction false} InBandExactlyFrom(optimal: int, rpm: int, n: nat)
    requires optimal >= 10
    ensures InBand(optimal, Iterate(optimal, rpm, n)) <==> n >= StepsToBand(optimal, rpm)
    decreases n
  {
    if n > 0 {
      TargetTowardsBand(optimal, rpm);
      InBandExactlyFrom(optimal, Target(optimal, rpm), n - 1);
    }
  }

  /** `n` steps of the given size and no fewer cover the distance. */
  predicate Covers(size: int, n: int, distance: int) {
    size * (n - 1) < distance <= size * n
  }

  lemma CoversOneMore(size: int, n: int, distance: int)
    ensures Covers(size, n, distance) ==> Covers(size, n + 1, distance + size)
    ensures 0 < distance <= size ==> Covers(size, 1, distance)
  {
    assert size * (n + 1) == size * n + size && size * n == size * (n - 1) + size;
  }

  /** The number of steps is the distance divided by the step size, rounded up. */
  lemma {:induction false} StepsBound(optimal: int, rpm: int)
    requires optimal >= 10 && rpm >= 0
    ensures var n, size := StepsToBand(optimal, rpm), if rpm < optimal then Up(optimal) else Down(optimal);
      Covers(size, n, Distance(optimal, rpm)) || n == Distance(optimal, rpm) == 0
    decreases Distance(optimal, rpm)
  {
    if !InBand(optimal, rpm) {
      hide Round, Up, Down, Covers;
      StepsOf(optimal);
      TargetTowardsBand(optimal, rpm);
      var next := Target(optimal, rpm);
      var n, size := StepsToBand(optimal, next), if rpm < optimal then Up(optimal) else Down(optimal);
      StepsBound(optimal, next);
      CoversOneMore(size, n, Distance(optimal, next));
      CoversOneMore(size, n, Distance(optimal, rpm));
    }
  }

  // ------------------------------------------------------- varying velocity

  lemma RoundMonotone(x: real, y: real)
    requires x <= y
    ensures Round(x) <= Round(y)
  {
  }

  lemma OptimalMonotone(v: real, w: real)
    requires 0.0 <= v <= w
    ensures OptimalRpm(v) <= OptimalRpm(w) && Up(OptimalRpm(v)) <= Up(OptimalRpm(w))
  {
    TimesMonotone(v, w, v, w);
    RoundMonotone(0.32047 * Square(v) + 297.72578 * v + 1024.30824, 0.32047 * Square(w) + 297.72578 * w + 1024.30824);
    RoundMonotone(OptimalRpm(v) as real * 0.1, OptimalRpm(w) as real * 0.1);
  }

  /** Average rpm after regulating towards each of the given optimal rpms in turn. */
  function Regulate(rpm: int, optimals: seq<int>): int {
    if optimals == [] then rpm else Target(optimals[|optimals| - 1], Regulate(rpm, optimals[..|optimals| - 1]))
  }

  lemma {:induction false} IterateOnceMore(optimal: int, rpm: int, n: nat)
    ensures Iterate(optimal, rpm, n + 1) == Target(optimal, Iterate(optimal, rpm, n))
    decreases n
  {
    if n > 0 {
      IterateOnceMore(optimal, Target(optimal, rpm), n - 1);
    }
  }

  /** Convergence at a constant optimal rpm: in the band from exactly the
      `StepsToBand`-th regulation on, and then for ever. */
  lemma {:induction false} ConstantOptimalConverges(rpm: int, optimals: seq<int>, optimal: int)
    requires optimal >= 10 && forall k :: 0 <= k < |optimals| ==> optimals[k] == optimal
    ensures Regulate(rpm, optimals) == Iterate(optimal, rpm, |optimals|)
    ensures InBand(optimal, Regulate(rpm, optimals)) <==> |optimals| >= StepsToBand(optimal, rpm)
  {
    if optimals != [] {
      ConstantOptimalConverges(rpm, optimals[..|optimals| - 1], optimal);
      IterateOnceMore(optimal, rpm, |optimals| - 1);
    }
    hide Regulate, Iterate, Target, InBand, StepsToBand;
    InBandExactlyFrom(optimal, rpm, |optimals|);
  }

  function Ceiling(start: int, top: int): int {
    if start < top + Up(top) then top + Up(top) else start
  }

  lemma {:induction false} RegulationBounded(rpm: int, optimals: seq<int>, top: int)
    requires top >= 10 && forall k :: 0 <= k < |optimals| ==> 10 <= optimals[k] <= top
    ensures Regulate(rpm, optimals) <= Ceiling(rpm, top)
    ensures rpm >= 0 || optimals != [] ==> Regulate(rpm, optimals) >= 0
  {
    if optimals != [] {
      hide Round;
      var optimal := optimals[|optimals| - 1];
      RegulationBounded(rpm, optimals[..|optimals| - 1], top);
      RoundMonotone(optimal as real * 0.1, top as real * 0.1);
      StepsOf(optimal);
      StepsOf(top);
    }
  }

  /** The optimal rpms at the given velocities. */
  function Optimals(velocities: seq<real>, optimal: real -> int): (r: seq<int>)
    ensures |r| == |velocities|
  {
    seq(|velocities|, k requires 0 <= k < |velocities| => optimal(velocities[k]))
  }

  /** Velocities in [0, limit] keep the regulated average at most the larger of its start
      and the top of the highest band, and never negative unless it starts so. */
  lemma VelocitiesBound(rpm: int, velocities: seq<real>, limit: real)
    requires limit >= 0.0 && forall k :: 0 <= k < |velocities| ==> 0.0 <= velocities[k] <= limit
    ensures Regulate(rpm, Optimals(velocities, OptimalRpm)) <= Ceiling(rpm, OptimalRpm(limit))
    ensures rpm >= 0 || velocities != [] ==> Regulate(rpm, Optimals(velocities, OptimalRpm)) >= 0
  {
    hide OptimalRpm, Regulate, Ceiling;
    forall k | 0 <= k < |velocities|
      ensures 10 <= Optimals(velocities, OptimalRpm)[k] <= OptimalRpm(limit)
    {
      OptimalAtLeastIdle(velocities[k]);
      OptimalMonotone(velocities[k], limit);
    }
    OptimalAtLeastIdle(limit);
    RegulationBounded(rpm, Optimals(velocities, OptimalRpm), OptimalRpm(limit));
  }

  // ---------------------------------------------------------- the closed loop

  function Total(rpms: seq<int>): int {
    if rpms == [] then 0 else Total(rpms[..|rpms| - 1]) + rpms[|rpms| - 1]
  }

  /** Unsigned division of the total, read back as signed: rounds down. */
  function Average(rpms: seq<int>): int {
    Total(rpms) / NUM_MOTORS
  }

  lemma TotalOfFour(rpms: seq<int>)
    requires |rpms| == 4
    ensures Total(rpms) == rpms[0] + rpms[1] + rpms[2] + rpms[3]
  {
    assert rpms[..3][..2] == rpms[..2] && rpms[..2][..1] == rpms[..1] && rpms[..1][..0] == [];
    assert Total(rpms[..1]) == rpms[0] && Total(rpms[..2]) == rpms[0] + rpms[1];
    assert Total(rpms[..3]) == rpms[0] + rpms[1] + rpms[2];
  }

  /** One call of `accelerate`: the clock and the published velocity. */
  datatype Call = Call(now: nat, velocity: real)

  /** Rpms of the controllers and time of the last regulation. */
  datatype Loop = Loop(rpms: seq<int>, previous: nat) {
    predicate Valid() {
      |rpms| == NUM_MOTORS
    }
  }

  /** More than 5 ms have passed, on an unsigned 64-bit clock. */
  predicate Due(previous: nat, now: nat) {
    (now - previous) % LONG_WORD > THROTTLE_MICROS
  }

  /** All controllers follow the rpm regulated from their average towards the optimal rpm
      at the call's velocity; a call that is not due changes nothing. */
  function Accelerated(l: Loop, c: Call, optimal: real -> int): (r: Loop)
    requires l.Valid()
    ensures r.Valid()
  {
    if Due(l.previous, c.now) then
      var rpm := Target(optimal(c.velocity), Average(l.rpms));
      Loop([rpm, rpm, rpm, rpm], c.now)
    else l
  }

  /** The closed loop over any sequence of calls. */
  function LoopAll(l: Loop, calls: seq<Call>, optimal: real -> int): (r: Loop)
    requires l.Valid()
    ensures r.Valid()
  {
    if calls == [] then l else Accelerated(LoopAll(l, calls[..|calls| - 1], optimal), calls[|calls| - 1], optimal)
  }

  /** Time of the last regulation after the calls. */
  function LastDue(previous: nat, calls: seq<Call>): nat {
    if calls == [] then previous
    else
      var last, now := LastDue(previous, calls[..|calls| - 1]), calls[|calls| - 1].now;
      if Due(last, now) then now else last
  }

  /** Velocities of the calls that are due. */
  function DueVelocities(previous: nat, calls: seq<Call>): (vs: seq<real>)
    ensures |vs| <= |calls|
  {
    if calls == [] then []
    else
      var init, c := calls[..|calls| - 1], calls[|calls| - 1];
      DueVelocities(previous, init) + if Due(LastDue(previous, init), c.now) then [c.velocity] else []
  }

  /** Controllers that all follow one target average to it. */
  lemma AverageOfEqual(rpms: seq<int>, rpm: int)
    requires |rpms| == NUM_MOTORS && forall i :: 0 <= i < NUM_MOTORS ==> rpms[i] == rpm
    ensures Average(rpms) == rpm
  {
    assert rpms == [rpm, rpm, rpm, rpm];
    assert Total([rpm]) == rpm by {
      assert [rpm][..0] == [];
    }
    assert Total([rpm, rpm]) == 2 * rpm by {
      assert [rpm, rpm][..1] == [rpm];
    }
    assert Total([rpm, rpm, rpm]) == 3 * rpm by {
      assert [rpm, rpm, rpm][..2] == [rpm, rpm];
    }
    assert Total(rpms) == 4 * rpm by {
      assert rpms[..3] == [rpm, rpm, rpm];
    }
  }

  lemma {:induction false} DueVelocitiesWithin(previous: nat, calls: seq<Call>, lo: real, hi: real)
    requires forall k :: 0 <= k < |calls| ==> lo <= calls[k].velocity <= hi
    ensures forall k :: 0 <= k < |DueVelocities(previous, calls)| ==> lo <= DueVelocities(previous, calls)[k] <= hi
  {
    if calls != [] {
      DueVelocitiesWithin(previous, calls[..|calls| - 1], lo, hi);
    }
  }

  /** The closed loop of four controllers, whatever their rpms at the start and whatever
      rpm is optimal at which velocity, regulates their average once per due call; from
      the first due call on they all run at it. */
  lemma {:induction false} LoopRegulates(l: Loop, calls: seq<Call>, optimal: real -> int)
    requires l.Valid()
    ensures var r, due := LoopAll(l, calls, optimal), DueVelocities(l.previous, calls);
      && r.previous == LastDue(l.previous, calls)
      && Average(r.rpms) == Regulate(Average(l.rpms), Optimals(due, optimal))
      && (due != [] ==> forall i :: 0 <= i < NUM_MOTORS ==> r.rpms[i] == Average(r.rpms))
  {
    hide Target, Average, Due;
    if calls != [] {
      var init, c := calls[..|calls| - 1], calls[|calls| - 1];
      LoopRegulates(l, init, optimal);
      var before, due := LoopAll(l, init, optimal), DueVelocities(l.previous, init);
      if Due(before.previous, c.now) {
        var rpm := Target(optimal(c.velocity), Average(before.rpms));
        AverageOfEqual([rpm, rpm, rpm, rpm], rpm);
        assert Optimals(due + [c.velocity], optimal)[..|due|] == Optimals(due, optimal);
        assert Regulate(Average(l.rpms), Optimals(due + [c.velocity], optimal)) == rpm;
      } else {
        assert due + [] == due;
      }
    } else {
      assert Optimals([], optimal) == [];
    }
  }

  lemma OptimalsOfConstant(velocities: seq<real>, velocity: real, optimal: real -> int)
    requires forall k :: 0 <= k < |velocities| ==> velocity <= velocities[k] <= velocity
    ensures forall k :: 0 <= k < |velocities| ==> Optimals(velocities, optimal)[k] == optimal(velocity)
  {
  }

  /** Convergence of the closed loop: at constant velocity the average rpm of the four
      controllers is in the band of the optimal rpm exactly from the `StepsToBand`-th
      due call on, and then for ever. */
  lemma ClosedLoopConverges(l: Loop, calls: seq<Call>, velocity: real)
    requires l.Valid() && velocity >= 0.0
    requires forall k :: 0 <= k < |calls| ==> calls[k].velocity == velocity
    ensures var opt, due := OptimalRpm(velocity), |DueVelocities(l.previous, calls)|;
      && opt >= 10
      && (InBand(opt, Average(LoopAll(l, calls, OptimalRpm).rpms)) <==> due >= StepsToBand(opt, Average(l.rpms)))
  {
    OptimalAtLeastIdle(velocity);
    hide Round, Square, Average, Regulate, InBand, StepsToBand, LoopAll, DueVelocities;
    var due := DueVelocities(l.previous, calls);
    DueVelocitiesWithin(l.previous, calls, velocity, velocity);
    OptimalsOfConstant(due, velocity, OptimalRpm);
    LoopRegulates(l, calls, OptimalRpm);
    ConstantOptimalConverges(Average(l.rpms), Optimals(due, OptimalRpm), OptimalRpm(velocity));
  }

  /** With velocities in [0, limit] the average rpm never exceeds its start or the top of the
      highest band, and from a start at rest, or once regulated, it never goes negative. */
  lemma RpmBounded(l: Loop, calls: seq<Call>, limit: real)
    requires l.Valid() && limit >= 0.0
    requires forall k :: 0 <= k < |calls| ==> 0.0 <= calls[k].velocity <= limit
    ensures var rpm, start := Average(LoopAll(l, calls, OptimalRpm).rpms), Average(l.rpms);
      && rpm <= Ceiling(start, OptimalRpm(limit))
      && (start >= 0 || DueVelocities(l.previous, calls) != [] ==> rpm >= 0)
  {
    hide OptimalRpm, Average, Regulate, Ceiling, LoopAll, DueVelocities;
    DueVelocitiesWithin(l.previous, calls, 0.0, limit);
    LoopRegulates(l, calls, OptimalRpm);
    VelocitiesBound(Average(l.rpms), DueVelocities(l.previous, calls), limit);
  }

  class FakeController {
    var actualVelocity: int

    constructor ()
      ensures actualVelocity == 0
    {
      actualVelocity := 0;
    }

    method SendTargetVelocity(targetVelocity: int)
      modifies this
      ensures actualVelocity == targetVelocity
    {
      actualVelocity := targetVelocity;
    }

    method GetVelocity() returns (v: int)
      ensures v == actualVelocity
    {
      v := actualVelocity;
    }
  }

  class StateProcessor {
    const controllers: seq<FakeController>
    var motorRpms: seq<nat>
    var isInitialised: bool
    var previousAccelerationTime: nat

    ghost predicate Valid()
      reads this`motorRpms
    {
      && |controllers| == |motorRpms| == NUM_MOTORS
      && forall i, j :: 0 <= i < j < NUM_MOTORS ==> controllers[i] != controllers[j]
    }

    ghost function Velocities(): (v: seq<int>)
      requires Valid()
      reads this`motorRpms, controllers
      ensures |v| == NUM_MOTORS
    {
      seq(NUM_MOTORS, i requires 0 <= i < NUM_MOTORS reads controllers => controllers[i].actualVelocity)
    }

    constructor (initialised: bool)
      ensures Valid() && isInitialised == initialised && previousAccelerationTime == 0
      ensures Velocities() == [0, 0, 0, 0]
    {
      var cs: seq<FakeController> := [];
      for i := 0 to NUM_MOTORS
        invariant |cs| == i
        invariant forall k :: 0 <= k < i ==> fresh(cs[k]) && cs[k].actualVelocity == 0
        invariant forall k, l :: 0 <= k < l < i ==> cs[k] != cs[l]
      {
        var c := new FakeController();
        cs := cs + [c];
      }
      controllers, motorRpms := cs, [0, 0, 0, 0];
      isInitialised, previousAccelerationTime := initialised, 0;
    }

    method CalculateAverageRpm() returns (average: int)
      requires Valid()
      ensures average == Average(Velocities())
      ensures var v := Velocities(); 4 * average <= v[0] + v[1] + v[2] + v[3] < 4 * average + 4
    {
      TotalOfFour(Velocities());
      var total := 0;
      for i := 0 to NUM_MOTORS
        invariant total == Total(Velocities()[..i])
      {
        var v := controllers[i].GetVelocity();
        total := total + v;
        assert Velocities()[..i + 1][..i] == Velocities()[..i];
      }
      assert Velocities()[..NUM_MOTORS] == Velocities();
      average := total / NUM_MOTORS;
    }

    /** Stores what the controllers measure, converted to unsigned. */
    method PublishRpms()
      requires Valid()
      modifies this`motorRpms
      ensures Valid() && Velocities() == old(Velocities())
      ensures forall i :: 0 <= i < NUM_MOTORS ==> motorRpms[i] == Velocities()[i] % WORD
    {
      for i := 0 to NUM_MOTORS
        invariant Valid()
        invariant forall k :: 0 <= k < i ==> motorRpms[k] == controllers[k].actualVelocity % WORD
      {
        var v := controllers[i].GetVelocity();
        motorRpms := motorRpms[i := v % WORD];
      }
    }

    method SendToAll(rpm: int)
      requires Valid()
      modifies controllers
      ensures forall i :: 0 <= i < NUM_MOTORS ==> Velocities()[i] == rpm
    {
      for i := 0 to NUM_MOTORS
        invariant forall k :: 0 <= k < i ==> controllers[k].actualVelocity == rpm
      {
        controllers[i].SendTargetVelocity(rpm);
      }
    }

    ghost function Value(): (l: Loop)
      requires Valid()
      reads this, controllers
      ensures l.Valid()
    {
      Loop(Velocities(), previousAccelerationTime)
    }

    /** One regulation: all controllers are sent the target for their average. */
    method RegulateAll(velocity: real)
      requires Valid()
      modifies controllers
      ensures var rpm := Target(OptimalRpm(velocity), Average(old(Velocities()))); Velocities() == [rpm, rpm, rpm, rpm]
    {
      hide OptimalRpm, Target, Average;
      var actual := CalculateAverageRpm();
      var rpm := CalculateRpm(velocity, actual);
      SendToAll(rpm);
      assert Velocities() == [rpm, rpm, rpm, rpm];
    }

    /** Publishes the measured rpms; at most every 5 ms also regulates. */
    method Accelerate(now: nat, velocity: real)
      requires Valid()
      modifies this`previousAccelerationTime, this`motorRpms, controllers
      ensures Valid()
      ensures !isInitialised ==> motorRpms == old(motorRpms) && Value() == old(Value())
      ensures isInitialised ==> Value() == Accelerated(old(Value()), Call(now, velocity), OptimalRpm)
      ensures isInitialised ==> forall i :: 0 <= i < NUM_MOTORS ==> motorRpms[i] == old(Velocities()[i]) % WORD
      ensures (now - old(previousAccelerationTime)) % 0x1_0000_0000_0000_0000 <= 5000 ==> Value() == old(Value())
      ensures isInitialised && (now - old(previousAccelerationTime)) % 0x1_0000_0000_0000_0000 > 5000 ==>
        var rpm := Target(OptimalRpm(velocity), Average(old(Velocities())));
        previousAccelerationTime == now && Velocities() == [rpm, rpm, rpm, rpm]
    {
      hide OptimalRpm, Target, Average, Velocities;
      if !isInitialised {
        return;
      }
      PublishRpms();
      if (now - previousAccelerationTime) % LONG_WORD > THROTTLE_MICROS {
        previousAccelerationTime := now;
        RegulateAll(velocity);
      }
    }
  }
}
