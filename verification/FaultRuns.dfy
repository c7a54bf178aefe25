/** Runs of queries that reach the limits of the redundancy: one faulty IMU that
    moves the fused value as far as it can, two that take themselves out, and
    exactly the runs that end in the exception. */
module FaultRuns {
  import opened Arithmetic
  import opened OutlierDetection
  import opened Fusion
  import opened FaultLimits
  import DetectorRuns
  import Kalman

  /** The same query again and again. */
  function Repeat(q: Query, n: nat): (qs: seq<Query>)
    ensures |qs| == n && forall k :: 0 <= k < n ==> qs[k] == q
  {
    if n == 0 then [] else Repeat(q, n - 1) + [q]
  }

  function Constant(z: real, n: nat): (zs: seq<real>)
    ensures |zs| == n && forall k :: 0 <= k < n ==> zs[k] == z
  {
    if n == 0 then [] else Constant(z, n - 1) + [z]
  }

  // ------------------------------------------------------- geometric decay

  lemma PowStep(b: real, p: real, n: real)
    requires 0.0 <= b < 1.0 && p >= 0.0 && n >= 0.0 && Times(p, 1.0 + Times(n, 1.0 - b)) <= 1.0
    ensures Times(b, p) >= 0.0 && Times(Times(b, p), 1.0 + Times(n + 1.0, 1.0 - b)) <= 1.0
  {
    var d, m := 1.0 - b, 1.0 + n * (1.0 - b);
    assert b * (m + d) == m - (n + 1.0) * (d * d);
    assert (n + 1.0) * (d * d) >= 0.0;
    assert b * (m + d) <= m;
    assert p * (b * (m + d)) <= p * m;
    assert (b * p) * (m + d) == p * (b * (m + d));
  }

  lemma {:induction false} PowBound(b: real, n: nat)
    requires 0.0 <= b < 1.0
    ensures Pow(b, n) >= 0.0 && Times(Pow(b, n), 1.0 + Times(n as real, 1.0 - b)) <= 1.0
  {
    hide Times;
    if n > 0 {
      PowBound(b, n - 1);
      PowStep(b, Pow(b, n - 1), (n - 1) as real);
    } else {
      ZeroTimes(1.0 - b);
    }
  }

  lemma ZeroTimes(a: real)
    ensures Times(0.0, a) == 0.0 && Times(1.0, 1.0) == 1.0
  {
  }

  lemma {:induction false} PowMonotone(a: real, b: real, n: nat)
    requires 0.0 <= a <= b
    ensures 0.0 <= Pow(a, n) <= Pow(b, n)
  {
    hide Times;
    if n > 0 {
      PowMonotone(a, b, n - 1);
      TimesMonotone(a, b, Pow(a, n - 1), Pow(b, n - 1));
    }
  }

  /** Powers of a contraction come below any positive bound. */
  lemma Vanishes(b: real, c: real, eps: real) returns (n: nat)
    requires 0.0 <= b < 1.0 && c >= 0.0 && eps > 0.0
    ensures Times(Pow(b, n), c) < eps
  {
    var d := 1.0 - b;
    TimesPositive(eps, d);
    var bound := Div(c, Times(eps, d));
    DivTimes(c, Times(eps, d));
    DivNonNegative(c, Times(eps, d));
    n := bound.Floor + 1;
    PowBound(b, n);
    BelowEps(Pow(b, n), n as real, d, c, eps, bound);
  }

  lemma TimesPositive(a: real, b: real)
    requires a > 0.0 && b > 0.0
    ensures Times(a, b) > 0.0
  {
  }

  lemma DivNonNegative(a: real, b: real)
    requires a >= 0.0 && b > 0.0
    ensures Div(a, b) >= 0.0
  {
  }

  lemma BelowEps(p: real, n: real, d: real, c: real, eps: real, bound: real)
    requires p >= 0.0 && Times(p, 1.0 + Times(n, d)) <= 1.0 && eps > 0.0 && d > 0.0
    requires n > bound && Times(bound, Times(eps, d)) == c
    ensures Times(p, c) < eps
  {
    assert (n - bound) * (eps * d) > 0.0;
    assert c < eps * (n * d);
    assert p * c <= p * (eps * (n * d));
    assert p * (eps * (n * d)) == eps * (p * (n * d));
    assert p * (n * d) <= 1.0 - p;
    assert eps * (p * (n * d)) <= eps * (1.0 - p);
    if p == 0.0 {
      assert p * c == 0.0;
    } else {
      assert eps * p > 0.0;
    }
  }

  // ------------------------------------------- the bound of one fault is met

  /** Under a constant measurement the estimate approaches it. */
  lemma ConstantApproach(e: Kalman.Estimate, z: real, n: nat, q: real, r: real)
    requires q > 0.0 && r >= 0.0 && e.p >= 0.0
    ensures Abs(Kalman.Run(e, Constant(z, n), q, r).x - z) <= Times(Pow(Kalman.Rate(q, r), n), Abs(e.x - z))
  {
    hide Kalman.Run, Kalman.Rate, Times, Pow, Abs;
    Kalman.EstimateConverges(e.x, z, e.p, Constant(z, n), q, r);
    Kalman.EstimateInHull(Kalman.Estimate(z, e.p), Constant(z, n), q, r, z, z);
    assert e == Kalman.Estimate(e.x, e.p);
  }

  lemma KalmanOnceMore(e: Kalman.Estimate, z: real, n: nat, q: real, r: real)
    requires q > 0.0 && r >= 0.0 && e.p >= 0.0
    ensures Kalman.Run(e, Constant(z, n + 1), q, r) == Kalman.Correct(Kalman.Run(e, Constant(z, n), q, r), z, q, r)
  {
    assert Constant(z, n + 1)[..n] == Constant(z, n);
  }

  ghost predicate Passes(q: Query) {
    forall i :: 0 <= i < NUM_SENSORS ==> HasPeer(q.readings, {}, i)
  }

  /** Filter `i` after `n` equal measurements. */
  function FilterRun(s: Fusion, i: nat, z: real, n: nat): Kalman.Estimate
    requires s.Valid() && i < NUM_SENSORS
  {
    Kalman.Run(s.filters[i], Constant(z, n), Kalman.STATE_TRANSITION_VARIANCE, s.noise[i])
  }

  /** While a query passes unchanged every filter makes its own Kalman run. */
  ghost predicate Filtered(s: Fusion, t: Fusion, q: Query, n: nat)
    requires s.Valid() && t.Valid()
  {
    && t.det.outliers == 0 && t.noise == s.noise
    && forall i :: 0 <= i < NUM_SENSORS ==> t.filters[i] == FilterRun(s, i, q.readings[i], n)
  }

  lemma FilteredStep(s: Fusion, t: Fusion, q: Query, n: nat)
    requires s.Valid() && t.Valid() && Filtered(s, t, q, n) && Passes(q)
    ensures Filtered(s, Next(t, q), q, n + 1)
  {
    hide Kalman.Run, Kalman.Correct, HasPeer, Step, FencesFor, CleanReadings, Flagged, Unreliable, Gather;
    PeersPass(t.det, q);
    UnreliableOfFour(t.det.reliable);
    forall i | 0 <= i < NUM_SENSORS
      ensures Next(t, q).filters[i] == FilterRun(s, i, q.readings[i], n + 1)
    {
      KalmanOnceMore(s.filters[i], q.readings[i], n, Kalman.STATE_TRANSITION_VARIANCE, s.noise[i]);
    }
  }

  lemma {:induction false} PassingRun(s: Fusion, q: Query, n: nat)
    requires s.Valid() && s.det.outliers == 0 && Passes(q)
    ensures var o := Run(s, Repeat(q, n)); o.Running? && Filtered(s, o.state, q, n)
  {
    hide Next, Passes, Filtered, Run;
    if n == 0 {
      RunOfNone(s);
      FilteredAtFirst(s, q);
    } else {
      PassingRun(s, q, n - 1);
      RunOnceMore(s, Repeat(q, n - 1), q);
      var t := Run(s, Repeat(q, n - 1)).state;
      AllReliableStill(s, t, q, n - 1);
      FilteredStep(s, t, q, n - 1);
    }
  }

  lemma FilteredAtFirst(s: Fusion, q: Query)
    requires s.Valid() && s.det.outliers == 0
    ensures Filtered(s, s, q, 0)
  {
  }

  lemma AllReliableStill(s: Fusion, t: Fusion, q: Query, n: nat)
    requires s.Valid() && t.Valid() && Filtered(s, t, q, n)
    ensures t.det.outliers == 0
  {
  }

  /** Three healthy IMUs at `h`, the fourth off by `d`. */
  function Off(h: real, d: real, unset: real): Query {
    Query([h, h, h, h + d], unset)
  }

  lemma OffPasses(h: real, d: real, unset: real)
    requires -6.0 <= d <= 6.0
    ensures Passes(Off(h, d, unset)) && Healthy(Off(h, d, unset).readings, {3}, h, h)
  {
    var r := Off(h, d, unset).readings;
    assert Agree(r[0], r[1]) && Agree(r[1], r[0]) && Agree(r[2], r[0]) && Agree(r[3], r[0]);
    assert HasPeer(r, {}, 0) && HasPeer(r, {}, 1) && HasPeer(r, {}, 2) && HasPeer(r, {}, 3);
    assert HasPeer(r, {3}, 0) && HasPeer(r, {3}, 1) && HasPeer(r, {3}, 2);
  }

  /** A rate that none of the four filters exceeds. */
  lemma CommonRate(s: Fusion) returns (b: real)
    requires s.Valid()
    ensures 0.0 <= b < 1.0
    ensures forall i :: 0 <= i < NUM_SENSORS ==>
      0.0 <= Kalman.Rate(Kalman.STATE_TRANSITION_VARIANCE, s.noise[i]) <= b
  {
    var q := Kalman.STATE_TRANSITION_VARIANCE;
    forall i | 0 <= i < NUM_SENSORS ensures 0.0 <= Kalman.Rate(q, s.noise[i]) < 1.0 {
      Kalman.RateIsContraction(q, s.noise[i]);
    }
    b := Max(Max(Kalman.Rate(q, s.noise[0]), Kalman.Rate(q, s.noise[1])),
             Max(Kalman.Rate(q, s.noise[2]), Kalman.Rate(q, s.noise[3])));
  }

  /** How near to `z` an estimate at 0 comes in `n` steps of any rate up to `b`. */
  lemma NearAfter(e: Kalman.Estimate, z: real, n: nat, r: real, b: real, c: real, eps: real)
    requires e.p >= 0.0 && r >= 0.0 && e.x == 0.0 && Abs(z) <= c && Times(Pow(b, n), c) < eps
    requires 0.0 <= Kalman.Rate(Kalman.STATE_TRANSITION_VARIANCE, r) <= b
    ensures Abs(Kalman.Run(e, Constant(z, n), Kalman.STATE_TRANSITION_VARIANCE, r).x - z) < eps
  {
    hide Kalman.Run, Kalman.Rate, Times, Pow;
    var rate := Kalman.Rate(Kalman.STATE_TRANSITION_VARIANCE, r);
    ConstantApproach(e, z, n, Kalman.STATE_TRANSITION_VARIANCE, r);
    PowMonotone(rate, b, n);
    TimesMonotone(Pow(rate, n), Pow(b, n), Abs(e.x - z), c);
  }

  lemma OffBounded(h: real, d: real, unset: real)
    ensures forall i :: 0 <= i < NUM_SENSORS ==> Abs(Off(h, d, unset).readings[i]) <= Abs(h) + Abs(d)
    ensures Abs(h) + Abs(d) >= 0.0
  {
  }

  lemma InitialReliable(s: Fusion)
    requires Initial(s)
    ensures s.Valid() && s.det.outliers == 0
  {
    UnreliableOfFour(FRESH.reliable);
  }

  lemma AverageNear(x0: real, x1: real, x2: real, x3: real, h: real, d: real, eps: real)
    requires Abs(x0 - h) < eps && Abs(x1 - h) < eps && Abs(x2 - h) < eps && Abs(x3 - (h + d)) < eps
    ensures Abs((x0 + x1 + x2 + x3) / 4.0 - (h + d / 4.0)) < eps
  {
  }

  /** All four estimates come near their readings. */
  lemma AllNear(s: Fusion, t: Fusion, q: Query, n: nat, b: real, c: real, eps: real)
    requires Initial(s) && t.Valid() && Filtered(s, t, q, n)
    requires Times(Pow(b, n), c) < eps && forall i :: 0 <= i < NUM_SENSORS ==> Abs(q.readings[i]) <= c
    requires forall i :: 0 <= i < NUM_SENSORS ==>
      0.0 <= Kalman.Rate(Kalman.STATE_TRANSITION_VARIANCE, s.noise[i]) <= b
    ensures forall i :: 0 <= i < NUM_SENSORS ==> Abs(t.filters[i].x - q.readings[i]) < eps
  {
    hide Kalman.Run, Kalman.Rate, Times, Pow, Abs;
    forall i | 0 <= i < NUM_SENSORS ensures Abs(t.filters[i].x - q.readings[i]) < eps {
      NearAfter(s.filters[i], q.readings[i], n, s.noise[i], b, c, eps);
    }
  }

  /** The bound of 1.5 is attained: an IMU that is off by up to 6 for long enough takes
      the fused value as near as wanted to a quarter of that off the healthy value. */
  lemma BoundAttained(s: Fusion, h: real, d: real, unset: real, eps: real) returns (n: nat)
    requires Initial(s) && -6.0 <= d <= 6.0 && eps > 0.0
    ensures var qs := Repeat(Off(h, d, unset), n);
      && AllHealthy(qs, {3}, h, h)
      && Run(s, qs).Running?
      && Abs(Fused(Run(s, qs).state) - (h + d / 4.0)) < eps
  {
    var q, c := Off(h, d, unset), Abs(h) + Abs(d);
    hide Kalman.Run, Kalman.Rate, Run, Fused, Passes, Healthy, Times, Pow, Abs, Filtered, Unreliable;
    OffBounded(h, d, unset);
    InitialReliable(s);
    OffPasses(h, d, unset);
    var b := CommonRate(s);
    n := Vanishes(b, c, eps);
    PassingRun(s, q, n);
    var t := Run(s, Repeat(q, n)).state;
    AllNear(s, t, q, n, b, c, eps);
    AllReliableStill(s, t, q, n);
    FusedOfAll(t);
    AverageNear(t.filters[0].x, t.filters[1].x, t.filters[2].x, t.filters[3].x, h, d, eps);
  }

  // -------------------------------------------------- two IMUs that drop out

  const TWO_FAR := [100.0, -100.0, 0.0, 0.0]

  lemma TwoFarFlagged(det: Detector)
    requires det.Valid() && det.outliers == 0
    ensures forall i :: 0 <= i < NUM_SENSORS ==> det.reliable[i]
    ensures var f := FencesFor(det, TWO_FAR);
      Flagged(det, TWO_FAR, f, 0) && Flagged(det, TWO_FAR, f, 1)
      && !Flagged(det, TWO_FAR, f, 2) && !Flagged(det, TWO_FAR, f, 3)
  {
    UnreliableOfFour(det.reliable);
    FlaggedExactly(det, TWO_FAR, 0);
    FlaggedExactly(det, TWO_FAR, 1);
    PeerNotFlagged(det, TWO_FAR, 2, 3);
    PeerNotFlagged(det, TWO_FAR, 3, 2);
  }

  lemma TwoFarStep(s: Fusion, unset: real, n: nat)
    requires s.Valid() && s.det.outliers == 0 && s.det.counter == [n, n, 0, 0]
    ensures var det := Next(s, Query(TWO_FAR, unset)).det;
      && det.counter == [n + 1, n + 1, 0, 0]
      && (n < MAX_STREAK ==> det.outliers == 0)
      && (n == MAX_STREAK ==> LastPair(det, 2, 3) && det.critical)
  {
    var det := Next(s, Query(TWO_FAR, unset)).det;
    TwoFarFlagged(s.det);
    assert det.counter == [n + 1, n + 1, 0, 0];
    UnreliableOfFour(det.reliable);
  }

  lemma {:induction false} TwoFarRun(s: Fusion, unset: real, n: nat)
    requires Initial(s) && n <= MAX_STREAK
    ensures var o := Run(s, Repeat(Query(TWO_FAR, unset), n));
      o.Running? && o.state.det.outliers == 0 && o.state.det.counter == [n, n, 0, 0]
  {
    if n == 0 {
      UnreliableOfFour(FRESH.reliable);
    } else {
      hide Next;
      TwoFarRun(s, unset, n - 1);
      RunOnceMore(s, Repeat(Query(TWO_FAR, unset), n - 1), Query(TWO_FAR, unset));
      TwoFarStep(Run(s, Repeat(Query(TWO_FAR, unset), n - 1)).state, unset, n - 1);
    }
  }

  /** The last pair is reached: 1001 queries in which two IMUs are far off take both out. */
  lemma LastPairReached(s: Fusion, unset: real)
    requires Initial(s)
    ensures var o := Run(s, Repeat(Query(TWO_FAR, unset), MAX_STREAK + 1));
      o.Running? && LastPair(o.state.det, 2, 3) && o.state.det.critical
  {
    hide Next, LastPair;
    TwoFarRun(s, unset, MAX_STREAK);
    RunOnceMore(s, Repeat(Query(TWO_FAR, unset), MAX_STREAK), Query(TWO_FAR, unset));
    TwoFarStep(Run(s, Repeat(Query(TWO_FAR, unset), MAX_STREAK)).state, unset, MAX_STREAK);
  }

  // ----------------------------------- exactly the runs that end in the exception

  /** The detector calls that queries from start-up make. */
  function CallsOf(qs: seq<Query>): (cs: seq<DetectorRuns.Call>)
    ensures |cs| == |qs|
  {
    if qs == [] then []
    else
      var init, q := CallsOf(qs[..|qs| - 1]), qs[|qs| - 1];
      var det := DetectorRuns.Run(init);
      init + [DetectorRuns.Call(q.readings, if det.outliers <= 2 then FencesFor(det, q.readings) else Fences(0.0, 0.0))]
  }

  /** The fusion's detector makes the run of those calls. */
  lemma {:induction false} DetectorFollowsCalls(s: Fusion, qs: seq<Query>)
    requires Initial(s) && Run(s, qs).Running?
    ensures Run(s, qs).state.det == DetectorRuns.Run(CallsOf(qs))
  {
    if qs != [] {
      hide Step, FencesFor, CleanReadings, FilterAll;
      var init := qs[..|qs| - 1];
      DetectorFollowsCalls(s, init);
      assert CallsOf(qs)[..|init|] == CallsOf(init);
    }
  }

  /** All IMUs but at most `u` have once been flagged in 1001 queries in a row. */
  ghost predicate AllButOneOut(qs: seq<Query>, u: nat) {
    forall i :: 0 <= i < NUM_SENSORS && i != u ==> DetectorRuns.ReachedLimit(CallsOf(qs), i)
  }

  ghost predicate OutBefore(qs: seq<Query>) {
    exists k, u :: 0 <= k < |qs| && 0 <= u < NUM_SENSORS && AllButOneOut(qs[..k], u)
  }

  lemma ThreeOut(s: Fusion, qs: seq<Query>)
    requires Initial(s) && Run(s, qs).Running?
    ensures Run(s, qs).state.det.outliers > 2 <==> exists u :: 0 <= u < NUM_SENSORS && AllButOneOut(qs, u)
  {
    hide Run, DetectorRuns.Run, DetectorRuns.ReachedLimit;
    var det := Run(s, qs).state.det;
    DetectorFollowsCalls(s, qs);
    forall i | 0 <= i < NUM_SENSORS ensures !det.reliable[i] <==> DetectorRuns.ReachedLimit(CallsOf(qs), i) {
      DetectorRuns.DroppedAtLimit(CallsOf(qs), i);
    }
    UnreliableOfFour(det.reliable);
    if det.outliers > 2 {
      var u := if det.reliable[0] then 0 else if det.reliable[1] then 1 else if det.reliable[2] then 2 else 3;
      assert AllButOneOut(qs, u);
    }
  }

  lemma OutBeforeStep(qs: seq<Query>)
    requires qs != []
    ensures var init := qs[..|qs| - 1];
      OutBefore(qs) <==> OutBefore(init) || exists u :: 0 <= u < NUM_SENSORS && AllButOneOut(init, u)
  {
    hide AllButOneOut;
    var init := qs[..|qs| - 1];
    assert forall k :: 0 <= k < |init| ==> init[..k] == qs[..k];
    if OutBefore(qs) {
      var k, u :| 0 <= k < |qs| && 0 <= u < NUM_SENSORS && AllButOneOut(qs[..k], u);
      assert k < |init| ==> AllButOneOut(init[..k], u);
    }
    if OutBefore(init) {
      var k, u :| 0 <= k < |init| && 0 <= u < NUM_SENSORS && AllButOneOut(init[..k], u);
      assert AllButOneOut(qs[..k], u);
    }
  }

  /** A run from start-up ends in the exception exactly when before its last query all
      IMUs but one have each been flagged in 1001 queries in a row. */
  lemma {:induction false} RaisedFromStart(s: Fusion, qs: seq<Query>)
    requires Initial(s)
    ensures Run(s, qs).Raised? <==> OutBefore(qs)
  {
    hide Next, AllButOneOut, OutBefore;
    if qs == [] {
      NothingBefore();
    } else {
      var init := qs[..|qs| - 1];
      RaisedFromStart(s, init);
      OutBeforeStep(qs);
      if Run(s, init).Running? {
        ThreeOut(s, init);
      }
    }
  }

  lemma NothingBefore()
    ensures !OutBefore([])
  {
  }
}
