/** Fusion of the four IMUs on the movement axis, over whole runs.

    One query detects outliers, filters what each reliable IMU reports, and
    averages the estimates. The result of the module is the guarantee behind the
    redundancy: a single IMU, whatever it reports, cannot take a healthy one out
    and moves the fused acceleration by at most 1.5 m/s^2. That two IMUs can do
    more is proved in FaultLimits. */
module Fusion {
  import opened Arithmetic
  import opened Statistics
  import opened OutlierDetection
  import opened Kalman

  /** Detector, one filter per IMU, and each filter's measurement variance. */
  datatype Fusion = Fusion(det: Detector, filters: seq<Estimate>, noise: seq<real>) {
    ghost predicate Valid() {
      && det.Valid()
      && |filters| == |noise| == NUM_SENSORS
      && forall i :: 0 <= i < NUM_SENSORS ==> filters[i].p >= 0.0 && noise[i] >= 0.0
    }
  }

  /** Gravity-corrected readings of the movement axis. `unset` is the content of
      the median slot, which the program leaves unwritten once two IMUs are out. */
  datatype Query = Query(readings: Readings, unset: real)

  function FencesFor(det: Detector, readings: seq<real>): Fences
    requires det.Valid() && det.outliers <= 2 && |readings| == NUM_SENSORS
  {
    FencesOf(ReliableSorted(det, readings))
  }

  function MedianFor(det: Detector, q: Query): real
    requires det.Valid() && det.outliers <= 2
  {
    if det.outliers <= 1 then Median(ReliableSorted(det, q.readings), det.outliers) else q.unset
  }

  function CleanReadings(det: Detector, q: Query): (r: seq<real>)
    requires det.Valid() && det.outliers <= 2
    ensures |r| == NUM_SENSORS
  {
    Replaced(det, q.readings, FencesFor(det, q.readings), MedianFor(det, q))
  }

  /** State after one query. */
  function Next(s: Fusion, q: Query): (r: Fusion)
    requires s.Valid() && s.det.outliers <= 2
    ensures r.Valid() && r.noise == s.noise && (s.det.critical ==> r.det.critical)
  {
    var det := Step(s.det, q.readings, FencesFor(s.det, q.readings));
    var clean := CleanReadings(s.det, q);
    Fusion(det, FilterAll(det.reliable, s.filters, s.noise, clean, NUM_SENSORS), s.noise)
  }

  /** The first `n` filters corrected, those of unreliable IMUs left alone. */
  function FilterAll(reliable: seq<bool>, filters: seq<Estimate>, noise: seq<real>, clean: seq<real>, n: nat)
    : (r: seq<Estimate>)
    requires |reliable| == |filters| == |noise| == |clean| && n <= |filters|
    requires forall i :: 0 <= i < |filters| ==> filters[i].p >= 0.0 && noise[i] >= 0.0
    ensures |r| == |filters|
    ensures forall i :: n <= i < |r| ==> r[i] == filters[i]
    ensures forall i :: 0 <= i < n ==>
      r[i] == if reliable[i] then Correct(filters[i], clean[i], STATE_TRANSITION_VARIANCE, noise[i]) else filters[i]
    ensures forall i :: 0 <= i < |r| ==> r[i].p >= 0.0
  {
    if n == 0 then filters
    else
      var r := FilterAll(reliable, filters, noise, clean, n - 1);
      StepInvariant(filters[n - 1], clean[n - 1], STATE_TRANSITION_VARIANCE, noise[n - 1]);
      if reliable[n - 1]
      then r[n - 1 := Correct(filters[n - 1], clean[n - 1], STATE_TRANSITION_VARIANCE, noise[n - 1])]
      else r
  }

  function Estimates(filters: seq<Estimate>): (r: seq<real>)
    ensures |r| == |filters|
  {
    seq(|filters|, i requires 0 <= i < |filters| => filters[i].x)
  }

  /** The fused acceleration: mean estimate of the reliable IMUs. */
  function Fused(s: Fusion): real
    requires s.Valid()
  {
    Mean(Gather(s.det.reliable, Estimates(s.filters), NUM_SENSORS))
  }

  /** A run either still goes on or has ended in an exception. */
  datatype Outcome = Raised | Running(state: Fusion)

  /** A query with fewer than two reliable IMUs raises. */
  function TryNext(s: Fusion, q: Query): (o: Outcome)
    requires s.Valid()
    ensures o.Running? ==> o.state.Valid()
  {
    if s.det.outliers > 2 then Raised else Running(Next(s, q))
  }

  function Run(s: Fusion, qs: seq<Query>): (o: Outcome)
    requires s.Valid()
    ensures o.Running? ==> o.state.Valid()
  {
    if qs == [] then Running(s)
    else
      var o := Run(s, qs[..|qs| - 1]);
      if o.Raised? then Raised else TryNext(o.state, qs[|qs| - 1])
  }

  lemma RunOfNone(s: Fusion)
    requires s.Valid()
    ensures Run(s, []) == Running(s)
  {
  }

  lemma RunOnceMore(s: Fusion, qs: seq<Query>, q: Query)
    requires s.Valid()
    ensures Run(s, qs + [q]) == if Run(s, qs).Raised? then Raised else TryNext(Run(s, qs).state, q)
  {
    assert (qs + [q])[..|qs|] == qs;
  }

  // ------------------------------------------------------- one faulty IMU

  predicate Agree(a: real, b: real) {
    -6.0 <= a - b <= 6.0
  }

  /** Some other healthy IMU agrees with IMU `i` within 6 m/s^2. */
  ghost predicate HasPeer(readings: seq<real>, faulty: set<nat>, i: nat)
    requires |readings| == NUM_SENSORS && i < NUM_SENSORS
  {
    exists j :: 0 <= j < NUM_SENSORS && j != i && j !in faulty && Agree(readings[i], readings[j])
  }

  /** No IMU but `i` is healthy. */
  ghost predicate Alone(faulty: set<nat>, i: nat) {
    forall j :: 0 <= j < NUM_SENSORS && j != i ==> j in faulty
  }

  /** Every healthy IMU has a peer, unless it is alone. */
  ghost predicate Close(readings: seq<real>, faulty: set<nat>)
    requires |readings| == NUM_SENSORS
  {
    forall i :: 0 <= i < NUM_SENSORS && i !in faulty && !Alone(faulty, i) ==> HasPeer(readings, faulty, i)
  }

  /** All IMUs outside `faulty` report values in [lo, hi] close to one another. */
  ghost predicate Healthy(readings: seq<real>, faulty: set<nat>, lo: real, hi: real)
    requires |readings| == NUM_SENSORS
  {
    && (forall i :: 0 <= i < NUM_SENSORS && i !in faulty ==> lo <= readings[i] <= hi)
    && Close(readings, faulty)
  }

  /** `x` is in the hull of 0 and [lo, hi], widened by `slack`. */
  predicate Within(x: real, lo: real, hi: real, slack: real) {
    Min(0.0, lo) - slack <= x <= Max(0.0, hi) + slack
  }

  ghost predicate Tolerant(s: Fusion, faulty: set<nat>, lo: real, hi: real) {
    && s.Valid()
    && !s.det.critical
    && s.det.outliers <= 1
    && (forall i :: 0 <= i < NUM_SENSORS && i !in faulty ==>
          s.det.reliable[i] && s.det.counter[i] == 0 && Within(s.filters[i].x, lo, hi, 0.0))
    && forall i :: 0 <= i < NUM_SENSORS && i in faulty ==> Within(s.filters[i].x, lo - 6.0, hi + 6.0, 0.0)
  }

  lemma OnlyOne(faulty: set<nat>, i: nat, j: nat)
    requires |faulty| <= 1 && i in faulty && j in faulty
    ensures i == j
  {
    assert |faulty - {i}| == 0;
    assert j !in faulty - {i};
  }

  /** A sensor other than `i` and `j`. */
  function Other(i: nat, j: nat): (k: nat)
    ensures k < 3 && k != i && k != j
  {
    if 0 !in {i, j} then 0 else if 1 !in {i, j} then 1 else 2
  }

  lemma NotAlone(faulty: set<nat>, i: nat, j: nat)
    requires j < NUM_SENSORS && j != i && j !in faulty
    ensures !Alone(faulty, i)
  {
  }

  /** One fault leaves no IMU alone. */
  lemma OthersNotAll(faulty: set<nat>, i: nat)
    requires |faulty| <= 1 && i < NUM_SENSORS && i !in faulty
    ensures !Alone(faulty, i)
  {
    var j := Other(i, i);
    var k := Other(i, j);
    if j in faulty && k in faulty {
      OnlyOne(faulty, j, k);
    }
  }

  /** A reading that agrees within 6 with another reliable one is not flagged. */
  lemma PeerNotFlagged(det: Detector, readings: seq<real>, i: nat, j: nat)
    requires det.Valid() && |readings| == NUM_SENSORS && det.outliers <= 1
    requires i < NUM_SENSORS && j < NUM_SENSORS && i != j && det.reliable[i] && det.reliable[j]
    requires Agree(readings[i], readings[j])
    ensures !Flagged(det, readings, FencesFor(det, readings), i)
  {
    FlaggedExactly(det, readings, i);
  }

  lemma HealthyNeverFlagged(det: Detector, readings: seq<real>, faulty: set<nat>, i: nat)
    requires det.Valid() && |readings| == NUM_SENSORS && det.outliers <= 1
    requires |faulty| <= 1 && i < NUM_SENSORS && i !in faulty
    requires forall j :: 0 <= j < NUM_SENSORS && j !in faulty ==> det.reliable[j]
    requires Close(readings, faulty)
    ensures !Flagged(det, readings, FencesFor(det, readings), i)
  {
    OthersNotAll(faulty, i);
    assert HasPeer(readings, faulty, i);
    var j :| 0 <= j < NUM_SENSORS && j != i && j !in faulty && Agree(readings[i], readings[j]);
    PeerNotFlagged(det, readings, i, j);
  }

  /** What a faulty IMU gets through: its reading if accepted, else the median. */
  lemma FaultyReadingBounded(det: Detector, q: Query, faulty: nat, lo: real, hi: real)
    requires det.Valid() && det.outliers <= 1
    requires faulty < NUM_SENSORS && det.reliable[faulty]
    requires forall j :: 0 <= j < NUM_SENSORS && j != faulty ==> det.reliable[j] && lo <= q.readings[j] <= hi
    ensures lo - 6.0 <= CleanReadings(det, q)[faulty] <= hi + 6.0
  {
    MedianWithin(det, q.readings, faulty, lo, hi);
    FlaggedExactly(det, q.readings, faulty);
  }

  lemma HealthyKept(s: Fusion, q: Query, faulty: set<nat>, lo: real, hi: real, i: nat)
    requires |faulty| <= 1 && Tolerant(s, faulty, lo, hi) && Healthy(q.readings, faulty, lo, hi)
    requires i < NUM_SENSORS && i !in faulty
    ensures Next(s, q).det.reliable[i] && Next(s, q).det.counter[i] == 0
    ensures Within(Next(s, q).filters[i].x, lo, hi, 0.0)
  {
    HealthyNeverFlagged(s.det, q.readings, faulty, i);
    StepInvariant(s.filters[i], CleanReadings(s.det, q)[i], STATE_TRANSITION_VARIANCE, s.noise[i]);
  }

  lemma FaultyKept(s: Fusion, q: Query, faulty: set<nat>, lo: real, hi: real, i: nat)
    requires |faulty| <= 1 && Tolerant(s, faulty, lo, hi) && Healthy(q.readings, faulty, lo, hi)
    requires i < NUM_SENSORS && i in faulty
    ensures Within(Next(s, q).filters[i].x, lo - 6.0, hi + 6.0, 0.0)
  {
    if s.det.reliable[i] {
      forall j | 0 <= j < NUM_SENSORS && j != i ensures j !in faulty {
        if j in faulty {
          OnlyOne(faulty, i, j);
        }
      }
      FaultyReadingBounded(s.det, q, i, lo, hi);
      StepInvariant(s.filters[i], CleanReadings(s.det, q)[i], STATE_TRANSITION_VARIANCE, s.noise[i]);
    }
  }

  lemma ToleranceKept(s: Fusion, q: Query, faulty: set<nat>, lo: real, hi: real)
    requires |faulty| <= 1 && Tolerant(s, faulty, lo, hi) && Healthy(q.readings, faulty, lo, hi)
    ensures Tolerant(Next(s, q), faulty, lo, hi)
  {
    var t := Next(s, q);
    forall i | 0 <= i < NUM_SENSORS && i !in faulty
      ensures t.det.reliable[i] && t.det.counter[i] == 0 && Within(t.filters[i].x, lo, hi, 0.0)
    {
      HealthyKept(s, q, faulty, lo, hi, i);
    }
    forall i | 0 <= i < NUM_SENSORS && i in faulty
      ensures Within(t.filters[i].x, lo - 6.0, hi + 6.0, 0.0)
    {
      FaultyKept(s, q, faulty, lo, hi, i);
    }
    AtMostOneOut(t.det.reliable, faulty);
  }

  lemma AtMostOneOut(reliable: seq<bool>, faulty: set<nat>)
    requires |reliable| == NUM_SENSORS && |faulty| <= 1
    requires forall i :: 0 <= i < NUM_SENSORS && i !in faulty ==> reliable[i]
    ensures Unreliable(reliable, NUM_SENSORS) <= 1
  {
    forall i, j | 0 <= i < j < NUM_SENSORS ensures reliable[i] || reliable[j] {
      if !reliable[i] && !reliable[j] {
        OnlyOne(faulty, i, j);
      }
    }
    UnreliableOfFour(reliable);
  }

  /** One faulty IMU moves the average of tolerated estimates by at most 1.5. */
  lemma FusedBounded(s: Fusion, faulty: set<nat>, lo: real, hi: real)
    requires |faulty| <= 1 && Tolerant(s, faulty, lo, hi)
    ensures Within(Fused(s), lo, hi, 1.5)
    ensures faulty == {} || s.det.outliers == 1 ==> Within(Fused(s), lo, hi, 0.0)
  {
    var xs := Estimates(s.filters);
    UnreliableOfFour(s.det.reliable);
    if s.det.outliers == 0 {
      forall i, j | 0 <= i < j < NUM_SENSORS ensures i !in faulty || j !in faulty {
        if i in faulty && j in faulty {
          OnlyOne(faulty, i, j);
        }
      }
      FusedOfAll(s);
    } else {
      var out :| 0 <= out < NUM_SENSORS && !s.det.reliable[out];
      forall i | 0 <= i < NUM_SENSORS && s.det.reliable[i] ensures i !in faulty {
        if i in faulty {
          OnlyOne(faulty, out, i);
        }
      }
      GatherMembers(s.det.reliable, xs, NUM_SENSORS);
      var g := Gather(s.det.reliable, xs, NUM_SENSORS);
      forall k | 0 <= k < |g| ensures Within(g[k], lo, hi, 0.0) {
        assert g[k] in g;
        var j :| 0 <= j < NUM_SENSORS && s.det.reliable[j] && xs[j] == g[k];
      }
      MeanBounds(g, Min(0.0, lo), Max(0.0, hi));
    }
  }

  /** With all IMUs reliable the fused acceleration is the mean of the four estimates. */
  lemma FusedOfAll(s: Fusion)
    requires s.Valid() && s.det.outliers == 0
    ensures forall i :: 0 <= i < NUM_SENSORS ==> s.det.reliable[i]
    ensures Fused(s) == (s.filters[0].x + s.filters[1].x + s.filters[2].x + s.filters[3].x) / 4.0
  {
    var xs := Estimates(s.filters);
    UnreliableOfFour(s.det.reliable);
    GatherOfFour(s.det.reliable, xs);
    assert Gather(s.det.reliable, xs, NUM_SENSORS) == [xs[0], xs[1], xs[2], xs[3]];
    MeanOfFour(xs[0], xs[1], xs[2], xs[3]);
  }

  lemma GatherOfFour(reliable: seq<bool>, data: seq<real>)
    requires |reliable| == |data| == NUM_SENSORS
    ensures Gather(reliable, data, NUM_SENSORS)
         == (if reliable[0] then [data[0]] else []) + (if reliable[1] then [data[1]] else [])
            + (if reliable[2] then [data[2]] else []) + (if reliable[3] then [data[3]] else [])
  {
    assert Gather(reliable, data, 2) == Gather(reliable, data, 1) + if reliable[1] then [data[1]] else [];
  }

  lemma MeanOfFour(a: real, b: real, c: real, d: real)
    ensures Mean([a, b, c, d]) == (a + b + c + d) / 4.0
  {
    assert Sum([d]) == d by {
      assert [d][1..] == [];
    }
    assert Sum([c, d]) == c + d by {
      assert [c, d][1..] == [d];
    }
    assert Sum([b, c, d]) == b + (c + d) by {
      assert [b, c, d][1..] == [c, d];
    }
    assert Sum([a, b, c, d]) == a + (b + (c + d)) by {
      assert [a, b, c, d][1..] == [b, c, d];
    }
  }

  /** The state of navigation before the first query: fresh detector, filters at 0. */
  ghost predicate Initial(s: Fusion) {
    s.Valid() && s.det == FRESH && forall i :: 0 <= i < NUM_SENSORS ==> s.filters[i].x == 0.0
  }

  ghost predicate AllHealthy(qs: seq<Query>, faulty: set<nat>, lo: real, hi: real) {
    forall k :: 0 <= k < |qs| ==> Healthy(qs[k].readings, faulty, lo, hi)
  }

  /** One-fault tolerance over whole runs. */
  lemma {:induction false} OneFaultTolerance(s: Fusion, qs: seq<Query>, faulty: set<nat>, lo: real, hi: real)
    requires Initial(s) && |faulty| <= 1 && AllHealthy(qs, faulty, lo, hi)
    ensures var o := Run(s, qs);
      && o.Running?
      && Tolerant(o.state, faulty, lo, hi)
      && Within(Fused(o.state), lo, hi, 1.5)
      && (faulty == {} || o.state.det.outliers == 1 ==> Within(Fused(o.state), lo, hi, 0.0))
  {
    if qs == [] {
    } else {
      hide Next, Fused, Healthy, Within;
      var init := qs[..|qs| - 1];
      OneFaultTolerance(s, init, faulty, lo, hi);
      ToleranceKept(Run(s, init).state, qs[|qs| - 1], faulty, lo, hi);
    }
    FusedBounded(Run(s, qs).state, faulty, lo, hi);
  }
}
