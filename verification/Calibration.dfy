/** Gravity calibration: up to three attempts, each judged on its own samples. */
module Calibration {
  import opened OutlierDetection
  import opened Statistics
  import opened Vibration

  const MAX_CALIBRATION_ATTEMPTS := 3
  const CALIBRATION_QUERIES := 10000
  const CALIBRATION_LIMIT := 0.05
  const NUM_TRACKERS := NUM_SENSORS * NUM_AXES

  const AT_REST: Vector := [0.0, 0.0, 0.0]

  /** An acceleration vector. */
  type Vector = v: seq<real> | |v| == NUM_AXES witness [0.0, 0.0, 0.0]

  /** The vectors of the four IMUs at one query. */
  type ImuData = d: seq<Vector> | |d| == NUM_SENSORS witness [AT_REST, AT_REST, AT_REST, AT_REST]

  /** One component of one IMU: component `p % 3` of IMU `p / 3`. */
  function Component(d: ImuData, p: nat): real
    requires p < NUM_TRACKERS
  {
    d[p / NUM_AXES][p % NUM_AXES]
  }

  /** Component `p` at `n` queries from query `from` on. */
  function Samples(imu: nat -> ImuData, from: nat, n: nat, p: nat): (r: seq<real>)
    requires p < NUM_TRACKERS
    ensures |r| == n
  {
    seq(n, k requires 0 <= k < n => Component(imu(from + k), p))
  }

  /** The samples of attempt `a` alone. */
  function AttemptSamples(imu: nat -> ImuData, a: nat, p: nat): (r: seq<real>)
    requires p < NUM_TRACKERS
    ensures |r| == CALIBRATION_QUERIES
  {
    Samples(imu, a * CALIBRATION_QUERIES, CALIBRATION_QUERIES, p)
  }

  /** What IMU `i` has read on one axis in the 10000 queries of attempt `a`. */
  function OwnSamples(imu: nat -> ImuData, a: nat, i: nat, axis: Axis): (r: seq<real>)
    requires i < NUM_SENSORS
    ensures |r| == 10000
  {
    seq(10000, k requires 0 <= k < 10000 => imu(a * 10000 + k)[i][axis])
  }

  lemma ComponentIs(d: ImuData, i: nat, axis: Axis)
    requires i < NUM_SENSORS
    ensures Component(d, 3 * i + axis) == d[i][axis]
  {
    assert (3 * i + axis) / NUM_AXES == i && (3 * i + axis) % NUM_AXES == axis;
  }

  lemma OwnSamplesAre(imu: nat -> ImuData, a: nat, i: nat, axis: Axis)
    requires i < NUM_SENSORS
    ensures OwnSamples(imu, a, i, axis) == AttemptSamples(imu, a, 3 * i + axis)
  {
    var own, tracked := OwnSamples(imu, a, i, axis), AttemptSamples(imu, a, 3 * i + axis);
    hide Component;
    forall k | 0 <= k < 10000 ensures own[k] == tracked[k] {
      ComponentIs(imu(a * 10000 + k), i, axis);
    }
  }

  /** All twelve variances of the attempt's own samples are under the limit. */
  ghost predicate AttemptGood(imu: nat -> ImuData, a: nat) {
    forall i, axis :: 0 <= i < NUM_SENSORS && 0 <= axis < NUM_AXES ==> Variance(OwnSamples(imu, a, i, axis)) < 0.05
  }

  /** Judged by the twelve trackers. */
  lemma GoodByTracker(imu: nat -> ImuData, a: nat)
    ensures AttemptGood(imu, a)
       <==> forall p :: 0 <= p < NUM_TRACKERS ==> Variance(AttemptSamples(imu, a, p)) < CALIBRATION_LIMIT
  {
    hide Variance, AttemptSamples, OwnSamples;
    forall p | 0 <= p < NUM_TRACKERS
      ensures AttemptSamples(imu, a, p) == OwnSamples(imu, a, p / NUM_AXES, p % NUM_AXES)
    {
      OwnSamplesAre(imu, a, p / NUM_AXES, p % NUM_AXES);
    }
    forall i, axis | 0 <= i < NUM_SENSORS && 0 <= axis < NUM_AXES
      ensures OwnSamples(imu, a, i, axis) == AttemptSamples(imu, a, 3 * i + axis)
    {
      OwnSamplesAre(imu, a, i, axis);
    }
  }

  /** `a` is the first good attempt, or the number of attempts if there is none. */
  ghost predicate FirstGood(imu: nat -> ImuData, a: nat) {
    && a <= MAX_CALIBRATION_ATTEMPTS
    && (a < MAX_CALIBRATION_ATTEMPTS ==> AttemptGood(imu, a))
    && forall b :: 0 <= b < a ==> !AttemptGood(imu, b)
  }

  /** After `n` queries the window of a tracker is the last attempt's samples. */
  lemma WindowIsAttempt(imu: nat -> ImuData, a: nat, p: nat)
    requires p < NUM_TRACKERS
    ensures Last(Samples(imu, 0, (a + 1) * CALIBRATION_QUERIES, p), CALIBRATION_QUERIES) == AttemptSamples(imu, a, p)
  {
  }

  function Onlines(trackers: seq<RollingStatistics>): set<OnlineStatistics> {
    set t | t in trackers :: t.online
  }

  ghost predicate Separate(trackers: seq<RollingStatistics>) {
    && |trackers| == NUM_TRACKERS
    && forall p, q :: 0 <= p < q < NUM_TRACKERS ==>
         trackers[p] != trackers[q] && trackers[p].online != trackers[q].online
  }

  /** Every tracker has seen its component of the first `n` queries. */
  ghost predicate Fed(trackers: seq<RollingStatistics>, imu: nat -> ImuData, n: nat)
    reads trackers, Onlines(trackers)
  {
    && Separate(trackers)
    && forall p :: 0 <= p < NUM_TRACKERS ==>
         && trackers[p].Valid() && trackers[p].windowSize == CALIBRATION_QUERIES
         && trackers[p].seen == Samples(imu, 0, n, p)
  }

  method NewTrackers(ghost imu: nat -> ImuData) returns (trackers: seq<RollingStatistics>)
    ensures Fed(trackers, imu, 0) && fresh(trackers) && fresh(Onlines(trackers))
  {
    trackers := [];
    for p := 0 to NUM_TRACKERS
      invariant |trackers| == p && fresh(trackers) && fresh(Onlines(trackers))
      invariant forall q :: 0 <= q < p ==>
        trackers[q].Valid() && trackers[q].windowSize == CALIBRATION_QUERIES && trackers[q].seen == []
      invariant forall q, r :: 0 <= q < r < p ==>
        trackers[q] != trackers[r] && trackers[q].online != trackers[r].online
    {
      var t := new RollingStatistics(CALIBRATION_QUERIES);
      assert Onlines(trackers + [t]) == Onlines(trackers) + {t.online};
      trackers := trackers + [t];
    }
  }

  /** One query: each tracker takes its component. */
  method FeedQuery(trackers: seq<RollingStatistics>, ghost imu: nat -> ImuData, ghost n: nat, data: ImuData)
    requires Fed(trackers, imu, n) && data == imu(n)
    modifies trackers, Onlines(trackers)
    ensures Fed(trackers, imu, n + 1)
  {
    hide Component, RollingStatistics.Valid;
    for p := 0 to NUM_TRACKERS
      invariant forall q :: 0 <= q < NUM_TRACKERS ==> trackers[q].Valid()
      invariant forall q :: 0 <= q < p ==> trackers[q].seen == Samples(imu, 0, n + 1, q)
      invariant forall q :: p <= q < NUM_TRACKERS ==> trackers[q].seen == Samples(imu, 0, n, q)
    {
      assert Samples(imu, 0, n + 1, p) == Samples(imu, 0, n, p) + [Component(data, p)];
      trackers[p].Update(Component(data, p));
    }
  }

  /** The queries of one attempt. */
  method Attempt(trackers: seq<RollingStatistics>, imu: nat -> ImuData, a: nat)
    requires Fed(trackers, imu, a * CALIBRATION_QUERIES)
    modifies trackers, Onlines(trackers)
    ensures Fed(trackers, imu, (a + 1) * CALIBRATION_QUERIES)
  {
    hide Fed;
    for i := 0 to CALIBRATION_QUERIES
      invariant Fed(trackers, imu, a * CALIBRATION_QUERIES + i)
    {
      FeedQuery(trackers, imu, a * CALIBRATION_QUERIES + i, imu(a * CALIBRATION_QUERIES + i));
    }
  }

  /** The trackers' statistics after attempt `a` are the batch statistics of its own samples. */
  lemma Isolated(trackers: seq<RollingStatistics>, imu: nat -> ImuData, a: nat, p: nat)
    requires Fed(trackers, imu, (a + 1) * CALIBRATION_QUERIES) && p < NUM_TRACKERS
    ensures trackers[p].mean == Mean(AttemptSamples(imu, a, p))
    ensures trackers[p].variance == Variance(AttemptSamples(imu, a, p))
  {
    hide Mean, Variance, Last;
    WindowIsAttempt(imu, a, p);
  }

  lemma AllIsolated(trackers: seq<RollingStatistics>, imu: nat -> ImuData, a: nat)
    requires Fed(trackers, imu, (a + 1) * CALIBRATION_QUERIES)
    ensures |trackers| == NUM_TRACKERS
    ensures forall p :: 0 <= p < NUM_TRACKERS ==>
      && trackers[p].mean == Mean(AttemptSamples(imu, a, p))
      && trackers[p].variance == Variance(AttemptSamples(imu, a, p))
  {
    hide Mean, Variance, AttemptSamples;
    forall p | 0 <= p < NUM_TRACKERS
      ensures trackers[p].mean == Mean(AttemptSamples(imu, a, p))
      ensures trackers[p].variance == Variance(AttemptSamples(imu, a, p))
    {
      Isolated(trackers, imu, a, p);
    }
  }

  method Judge(trackers: seq<RollingStatistics>, ghost imu: nat -> ImuData, ghost a: nat) returns (good: bool)
    requires Fed(trackers, imu, (a + 1) * CALIBRATION_QUERIES)
    ensures good <==> AttemptGood(imu, a)
  {
    GoodByTracker(imu, a);
    AllIsolated(trackers, imu, a);
    hide AttemptGood, Fed, Mean, Variance, AttemptSamples;
    good := true;
    for p := 0 to NUM_TRACKERS
      invariant good <==> forall q :: 0 <= q < p ==> Variance(AttemptSamples(imu, a, q)) < CALIBRATION_LIMIT
    {
      good := good && trackers[p].variance < CALIBRATION_LIMIT;
    }
  }

  /** The means and variances that the trackers hold. */
  method Read(trackers: seq<RollingStatistics>, ghost imu: nat -> ImuData, ghost a: nat)
      returns (means: seq<real>, variances: seq<real>)
    requires Fed(trackers, imu, (a + 1) * CALIBRATION_QUERIES)
    ensures |means| == |variances| == NUM_TRACKERS
    ensures forall p :: 0 <= p < NUM_TRACKERS ==>
      means[p] == Mean(AttemptSamples(imu, a, p)) && variances[p] == Variance(AttemptSamples(imu, a, p))
  {
    AllIsolated(trackers, imu, a);
    hide Fed, Mean, Variance, AttemptSamples;
    means, variances := [], [];
    for p := 0 to NUM_TRACKERS
      invariant |means| == |variances| == p
      invariant forall q :: 0 <= q < p ==>
        means[q] == Mean(AttemptSamples(imu, a, q)) && variances[q] == Variance(AttemptSamples(imu, a, q))
    {
      means, variances := means + [trackers[p].mean], variances + [trackers[p].variance];
    }
  }

  /** The attempts, until one is good or three have been made; `a` is the first good
      one, and the means and variances are those of its samples alone. */
  method Calibrate(imu: nat -> ImuData)
      returns (successful: bool, means: seq<real>, variances: seq<real>, ghost a: nat)
    ensures FirstGood(imu, a) && (successful <==> a < MAX_CALIBRATION_ATTEMPTS)
    ensures |means| == |variances| == NUM_TRACKERS
    ensures successful ==> forall p :: 0 <= p < NUM_TRACKERS ==>
      means[p] == Mean(AttemptSamples(imu, a, p)) && variances[p] == Variance(AttemptSamples(imu, a, p))
  {
    hide Fed, AttemptGood;
    var trackers := NewTrackers(imu);
    successful := false;
    var attempts := 0;
    while !successful && attempts < MAX_CALIBRATION_ATTEMPTS
      invariant attempts <= MAX_CALIBRATION_ATTEMPTS && fresh(trackers) && fresh(Onlines(trackers))
      invariant Fed(trackers, imu, attempts * CALIBRATION_QUERIES)
      invariant successful ==> attempts > 0 && AttemptGood(imu, attempts - 1)
      invariant forall b :: 0 <= b < (if successful then attempts - 1 else attempts) ==> !AttemptGood(imu, b)
      decreases MAX_CALIBRATION_ATTEMPTS - attempts
    {
      Attempt(trackers, imu, attempts);
      successful := Judge(trackers, imu, attempts);
      attempts := attempts + 1;
    }
    a := if successful then attempts - 1 else attempts;
    means, variances := Read(trackers, imu, attempts - 1);
  }
}
