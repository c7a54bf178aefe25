/** The guarantee of the redundant IMUs carried through dead reckoning: over a
    whole run of queries, what one faulty IMU can do to velocity and displacement. */
module FaultyReckoning {
  import opened Arithmetic
  import opened Fusion
  import opened Motion

  /** The fused value after a run; none after an exception. */
  function FusedOf(o: Outcome): real
    requires o.Running? ==> o.state.Valid()
  {
    if o.Running? then Fused(o.state) else 0.0
  }

  /** The fused samples that a run of queries hands to the integrators. */
  function FusedSamples(s: Fusion, qs: seq<Query>, times: seq<nat>): (r: seq<Sample>)
    requires s.Valid() && |qs| == |times|
    ensures |r| == |qs|
  {
    if qs == [] then []
    else
      FusedSamples(s, qs[..|qs| - 1], times[..|times| - 1]) + [Sample(times[|times| - 1], FusedOf(Run(s, qs)))]
  }

  /** Times in order, less than 2^32 microseconds apart. */
  ghost predicate InOrder(times: seq<nat>) {
    forall k :: 0 < k < |times| ==> times[k - 1] <= times[k] < times[k - 1] + WORD
  }

  lemma {:induction false} SamplesWithin(
      s: Fusion, qs: seq<Query>, times: seq<nat>, faulty: set<nat>, lo: real, hi: real, k: nat)
    requires Initial(s) && |faulty| <= 1 && |qs| == |times| && k < |qs|
    requires AllHealthy(qs, faulty, lo, hi)
    ensures FusedSamples(s, qs, times)[k].micros == times[k]
    ensures Within(FusedSamples(s, qs, times)[k].acceleration, lo, hi, 1.5)
  {
    hide Healthy, Tolerant, Min, Max, Fused, Run;
    var init := qs[..|qs| - 1];
    assert AllHealthy(init, faulty, lo, hi);
    if k < |init| {
      SamplesWithin(s, init, times[..|times| - 1], faulty, lo, hi, k);
    } else {
      OneFaultTolerance(s, qs, faulty, lo, hi);
    }
  }

  function Span(times: seq<nat>): real
    requires times != []
  {
    Seconds(times[|times| - 1] as int - times[0] as int)
  }

  /** From the first query on, whatever one IMU reports, velocity and displacement
      stay within the kinematics of the healthy range widened by 1.5 m/s^2. */
  lemma {:induction false} OneFaultReckoning(
      s: Fusion, k: Reckoning, qs: seq<Query>, times: seq<nat>, faulty: set<nat>, lo: real, hi: real)
    requires Initial(s) && !k.started && |faulty| <= 1
    requires |qs| == |times| > 0 && InOrder(times)
    requires AllHealthy(qs, faulty, lo, hi)
    ensures var r := ReckonAll(k, FusedSamples(s, qs, times));
      var t, a, b := Span(times), Min(0.0, lo) - 1.5, Max(0.0, hi) + 1.5;
      && VelocityAt(k.velocity.value, a, t) <= r.velocity.value <= VelocityAt(k.velocity.value, b, t)
      && PositionAt(k.displacement.value, k.velocity.value, a, t) <= r.displacement.value
         <= PositionAt(k.displacement.value, k.velocity.value, b, t)
  {
    hide Healthy, FusedSamples, ReckonAll, VelocityAt, PositionAt, Min, Max;
    var samples, a, b := FusedSamples(s, qs, times), Min(0.0, lo) - 1.5, Max(0.0, hi) + 1.5;
    forall i | 0 <= i < |samples|
      ensures samples[i].micros == times[i] && a <= samples[i].acceleration <= b
    {
      SamplesWithin(s, qs, times, faulty, lo, hi, i);
    }
    ReckoningFromFirst(k, samples, a, b);
  }
}
