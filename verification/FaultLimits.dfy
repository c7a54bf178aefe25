/** The limits of the redundancy of four IMUs: exactly how close healthy readings
    must be, exactly how many faults are tolerated, and exactly when a run ends
    in the exception. */
module FaultLimits {
  import opened Arithmetic
  import opened OutlierDetection
  import Kalman
  import opened Fusion

  // --------------------------------------------------- how close is enough

  /** No IMU but `faulty` is flagged when `faulty` reports `x`. */
  ghost predicate NoneFlagged(det: Detector, readings: Readings, faulty: nat, x: real)
    requires det.Valid() && det.outliers <= 2 && faulty < NUM_SENSORS
  {
    var r := readings[faulty := x];
    forall i :: 0 <= i < NUM_SENSORS && i != faulty ==> !Flagged(det, r, FencesFor(det, r), i)
  }

  /** The sensor that remains. */
  function Remaining(i: nat, j: nat, k: nat): (l: nat)
    requires i < NUM_SENSORS && j < NUM_SENSORS && k < NUM_SENSORS && i != j && j != k && k != i
    ensures l < NUM_SENSORS && l !in {i, j, k}
  {
    6 - i - j - k
  }

  lemma CloseSuffices(det: Detector, readings: Readings, faulty: nat, x: real)
    requires det.Valid() && det.outliers <= 1 && faulty < NUM_SENSORS
    requires forall j :: 0 <= j < NUM_SENSORS && j != faulty ==> det.reliable[j]
    requires Close(readings, {faulty})
    ensures NoneFlagged(det, readings, faulty, x)
  {
    var r := readings[faulty := x];
    CloseIgnoresFaulty(readings, faulty, x);
    hide Close;
    forall i | 0 <= i < NUM_SENSORS && i != faulty
      ensures !Flagged(det, r, FencesFor(det, r), i)
    {
      HealthyNeverFlagged(det, r, {faulty}, i);
    }
  }

  lemma CloseIgnoresFaulty(readings: Readings, faulty: nat, x: real)
    requires faulty < NUM_SENSORS && Close(readings, {faulty})
    ensures Close(readings[faulty := x], {faulty})
  {
    var r := readings[faulty := x];
    forall i | 0 <= i < NUM_SENSORS && i !in {faulty}
      ensures HasPeer(r, {faulty}, i)
    {
      OthersNotAll({faulty}, i);
      assert HasPeer(readings, {faulty}, i);
      var j :| 0 <= j < NUM_SENSORS && j != i && j !in {faulty} && Agree(readings[i], readings[j]);
      assert Agree(r[i], r[j]);
    }
  }

  /** Of three readings of which the first is more than 6 away from both others, an outer one is. */
  lemma OuterIsolated(a: real, b: real, c: real) returns (n: nat)
    requires !(-6.0 <= a - b <= 6.0) && !(-6.0 <= a - c <= 6.0)
    ensures n < 3
    ensures n == 0 ==> (a - b > 6.0 && a - c > 6.0) || (b - a > 6.0 && c - a > 6.0)
    ensures n == 1 ==> b - a > 6.0 && b - c > 6.0
    ensures n == 2 ==> c - a > 6.0 && c - b > 6.0
  {
    n := if (a > b) == (a > c) then 0 else if b > a then 1 else 2;
  }

  /** The reading of the fourth IMU that gets an isolated one of the three others flagged. */
  lemma IsolatedFlagged(det: Detector, readings: Readings, faulty: nat, i: nat) returns (x: real)
    requires det.Valid() && det.outliers <= 1 && faulty < NUM_SENSORS && i < NUM_SENSORS && i != faulty
    requires forall j :: 0 <= j < NUM_SENSORS && j != faulty ==> det.reliable[j]
    requires !HasPeer(readings, {faulty}, i)
    ensures !NoneFlagged(det, readings, faulty, x)
  {
    var j := Other(i, faulty);
    var k := Remaining(i, j, faulty);
    assert !Agree(readings[i], readings[j]) && !Agree(readings[i], readings[k]);
    var n := OuterIsolated(readings[i], readings[j], readings[k]);
    if n == 0 {
      x := readings[j];
      FarFlagged(det, readings[faulty := x], i, j, k, faulty);
    } else if n == 1 {
      x := readings[i];
      FarFlagged(det, readings[faulty := x], j, i, k, faulty);
    } else {
      x := readings[i];
      FarFlagged(det, readings[faulty := x], k, i, j, faulty);
    }
  }

  lemma FarFlagged(det: Detector, r: Readings, out: nat, j: nat, k: nat, l: nat)
    requires det.Valid() && det.outliers <= 1
    requires out < NUM_SENSORS && j < NUM_SENSORS && k < NUM_SENSORS && l < NUM_SENSORS
    requires out != j && j != k && k != out && l !in {out, j, k} && det.reliable[out]
    requires r[l] == r[j] || r[l] == r[k]
    requires (r[out] - r[j] > 6.0 && r[out] - r[k] > 6.0) || (r[j] - r[out] > 6.0 && r[k] - r[out] > 6.0)
    ensures Flagged(det, r, FencesFor(det, r), out)
  {
    FlaggedExactly(det, r, out);
    hide Flagged, FencesFor;
    forall m | 0 <= m < NUM_SENSORS && m != out
      ensures r[m] == r[j] || r[m] == r[k]
    {
      AllFour(out, j, k, l, m);
    }
  }

  lemma AllFour(i: nat, j: nat, k: nat, l: nat, m: nat)
    requires i < NUM_SENSORS && j < NUM_SENSORS && k < NUM_SENSORS && l < NUM_SENSORS && m < NUM_SENSORS
    requires i != j && i != k && i != l && j != k && j != l && k != l
    ensures m == i || m == j || m == k || m == l
  {
  }

  /** The agreement asked of three healthy IMUs is exact: whatever the fourth reports
      none of them is flagged, if and only if each has a peer within 6. */
  lemma CloseExactly(det: Detector, readings: Readings, faulty: nat)
    requires det.Valid() && det.outliers <= 1 && faulty < NUM_SENSORS
    requires forall j :: 0 <= j < NUM_SENSORS && j != faulty ==> det.reliable[j]
    ensures (forall x: real :: NoneFlagged(det, readings, faulty, x)) <==> Close(readings, {faulty})
  {
    if Close(readings, {faulty}) {
      forall x: real ensures NoneFlagged(det, readings, faulty, x) {
        CloseSuffices(det, readings, faulty, x);
      }
    } else {
      var i :| 0 <= i < NUM_SENSORS && i != faulty && !HasPeer(readings, {faulty}, i);
      var x := IsolatedFlagged(det, readings, faulty, i);
    }
  }

  // ------------------------------------------------------------- two faults

  /** Readings of which each has a peer pass the detector unchanged. */
  lemma PeersPass(det: Detector, q: Query)
    requires det.Valid() && det.outliers == 0
    requires forall i :: 0 <= i < NUM_SENSORS ==> HasPeer(q.readings, {}, i)
    ensures CleanReadings(det, q) == q.readings
    ensures Step(det, q.readings, FencesFor(det, q.readings)) == det.(counter := [0, 0, 0, 0])
  {
    UnreliableOfFour(det.reliable);
    forall i | 0 <= i < NUM_SENSORS
      ensures !Flagged(det, q.readings, FencesFor(det, q.readings), i)
    {
      assert HasPeer(q.readings, {}, i);
      var j :| 0 <= j < NUM_SENSORS && j != i && Agree(q.readings[i], q.readings[j]);
      PeerNotFlagged(det, q.readings, i, j);
    }
    var t := Step(det, q.readings, FencesFor(det, q.readings));
    assert t.reliable == det.reliable && t.counter == [0, 0, 0, 0];
  }

  /** The reading with which two filters together contribute `sum`. */
  lemma SteeringReading(kp: real, kq: real, xp: real, xq: real, sum: real) returns (v: real)
    requires kp > 0.0 && kq > 0.0
    ensures xp + Times(kp, v - xp) + xq + Times(kq, v - xq) == sum
  {
    var rest := sum - xp - xq + Times(kp, xp) + Times(kq, xq);
    v := Div(rest, kp + kq);
    DivTimes(rest, kp + kq);
  }

  function EstimateAfter(s: Fusion, i: nat, z: real): real
    requires s.Valid() && i < NUM_SENSORS
  {
    Kalman.Correct(s.filters[i], z, Kalman.STATE_TRANSITION_VARIANCE, s.noise[i]).x
  }

  /** The fused value after a query whose readings all pass. */
  lemma FusedAfterPass(s: Fusion, q: Query)
    requires s.Valid() && s.det.outliers == 0
    requires forall i :: 0 <= i < NUM_SENSORS ==> HasPeer(q.readings, {}, i)
    ensures Next(s, q).det == s.det.(counter := [0, 0, 0, 0])
    ensures Fused(Next(s, q)) == (EstimateAfter(s, 0, q.readings[0]) + EstimateAfter(s, 1, q.readings[1])
                                  + EstimateAfter(s, 2, q.readings[2]) + EstimateAfter(s, 3, q.readings[3])) / 4.0
  {
    hide Kalman.Correct, HasPeer;
    PeersPass(s.det, q);
    UnreliableOfFour(s.det.reliable);
    FusedOfAll(Next(s, q));
  }

  /** Two faulty IMUs steer. From any state with all IMUs still reliable, at any
      point of a run, whatever the two others report in agreement, the faulty pair has
      a reading with which nothing is flagged and the fused acceleration is `target`. */
  lemma TwoFaultsSteer(s: Fusion, readings: Readings, p: nat, q: nat, target: real, unset: real) returns (v: real)
    requires s.Valid() && s.det.outliers == 0
    requires p < NUM_SENSORS && q < NUM_SENSORS && p != q && Close(readings, {p, q})
    ensures var t := Next(s, Query(readings[p := v][q := v], unset));
      t.det == s.det.(counter := [0, 0, 0, 0]) && Fused(t) == target
  {
    var a := Other(p, q);
    var b := Remaining(a, p, q);
    hide EstimateAfter, Fused, Next, Close, HasPeer, Unreliable;
    v := SteerPair(s, p, q, 4.0 * target - EstimateAfter(s, a, readings[a]) - EstimateAfter(s, b, readings[b]));
    var r := readings[p := v][q := v];
    PairsHavePeers(readings, r, a, b, p, q);
    FusedAfterPass(s, Query(r, unset));
  }

  /** Two filters can be made to contribute any sum. */
  lemma SteerPair(s: Fusion, p: nat, q: nat, sum: real) returns (v: real)
    requires s.Valid() && p < NUM_SENSORS && q < NUM_SENSORS
    ensures EstimateAfter(s, p, v) + EstimateAfter(s, q, v) == sum
  {
    Kalman.StepInvariant(s.filters[p], 0.0, Kalman.STATE_TRANSITION_VARIANCE, s.noise[p]);
    Kalman.StepInvariant(s.filters[q], 0.0, Kalman.STATE_TRANSITION_VARIANCE, s.noise[q]);
    hide Kalman.Gain, Times, Fusion.Valid;
    v := SteeringReading(
      Kalman.Gain(s.filters[p].p, Kalman.STATE_TRANSITION_VARIANCE, s.noise[p]),
      Kalman.Gain(s.filters[q].p, Kalman.STATE_TRANSITION_VARIANCE, s.noise[q]), s.filters[p].x, s.filters[q].x, sum);
  }

  lemma PairsHavePeers(readings: Readings, r: Readings, a: nat, b: nat, p: nat, q: nat)
    requires a < NUM_SENSORS && b < NUM_SENSORS && p < NUM_SENSORS && q < NUM_SENSORS
    requires a != b && a !in {p, q} && b !in {p, q} && p != q
    requires Close(readings, {p, q}) && r[a] == readings[a] && r[b] == readings[b] && r[p] == r[q]
    ensures forall i :: 0 <= i < NUM_SENSORS ==> HasPeer(r, {}, i)
  {
    NotAlone({p, q}, a, b);
    assert HasPeer(readings, {p, q}, a);
    var j :| 0 <= j < NUM_SENSORS && j != a && j !in {p, q} && Agree(readings[a], readings[j]);
    AllFour(a, b, p, q, j);
    assert Agree(r[a], r[b]) && Agree(r[b], r[a]) && Agree(r[p], r[q]) && Agree(r[q], r[p]);
    assert HasPeer(r, {}, a) && HasPeer(r, {}, b);
    assert HasPeer(r, {}, p) && HasPeer(r, {}, q);
  }

  // ------------------------------------------------ how many are tolerated

  /** Whatever the IMUs in `faulty` do over a run of otherwise healthy queries, no
      exception is raised and the fused acceleration stays within 1.5 of the healthy range. */
  ghost predicate Tolerates(s: Fusion, faulty: set<nat>, lo: real, hi: real)
    requires s.Valid()
  {
    forall qs: seq<Query> :: AllHealthy(qs, faulty, lo, hi) ==>
      var o := Run(s, qs);
      o.Running? && Within(Fused(o.state), lo, hi, 1.5)
  }

  lemma OneTolerated(s: Fusion, faulty: set<nat>, lo: real, hi: real)
    requires Initial(s) && |faulty| <= 1
    ensures Tolerates(s, faulty, lo, hi)
  {
    hide Run, AllHealthy, Within, Fused;
    forall qs: seq<Query> | AllHealthy(qs, faulty, lo, hi)
      ensures Run(s, qs).Running? && Within(Fused(Run(s, qs).state), lo, hi, 1.5)
    {
      OneFaultTolerance(s, qs, faulty, lo, hi);
    }
  }

  /** The query with which two faulty IMUs leave the bounds. */
  lemma TwoLeave(s: Fusion, p: nat, q: nat, faulty: set<nat>, lo: real, hi: real) returns (query: Query)
    requires Initial(s) && lo <= hi && p < NUM_SENSORS && q < NUM_SENSORS && p != q && p in faulty && q in faulty
    ensures Healthy(query.readings, faulty, lo, hi)
    ensures s.det.outliers == 0 && Fused(Next(s, query)) == Max(0.0, hi) + 2.0
  {
    var readings := [lo, lo, lo, lo];
    AllEqualClose(lo, {p, q});
    UnreliableOfFour(FRESH.reliable);
    hide Fused, Next, Close, Healthy, Unreliable;
    var v := TwoFaultsSteer(s, readings, p, q, Max(0.0, hi) + 2.0, 0.0);
    query := Query(readings[p := v][q := v], 0.0);
    StillHealthy(query.readings, faulty, lo, hi);
  }

  /** The redundancy tolerates one fault and no more: for every healthy range and
      every set of faulty IMUs, all runs stay in bounds iff the set has at most one. */
  lemma ToleratesExactlyOne(s: Fusion, faulty: set<nat>, lo: real, hi: real)
    requires Initial(s) && lo <= hi && faulty <= {0, 1, 2, 3}
    ensures Tolerates(s, faulty, lo, hi) <==> |faulty| <= 1
  {
    if |faulty| <= 1 {
      OneTolerated(s, faulty, lo, hi);
    } else {
      var p :| p in faulty;
      assert |faulty - {p}| > 0;
      var q :| q in faulty - {p};
      var query := TwoLeave(s, p, q, faulty, lo, hi);
      hide Run, Next, Fused, Healthy;
      OneQuery(s, query);
      assert AllHealthy([query], faulty, lo, hi);
    }
  }

  lemma OneQuery(s: Fusion, q: Query)
    requires s.Valid() && s.det.outliers <= 2
    ensures Run(s, [q]) == Running(Next(s, q))
  {
    assert [q][..0] == [];
  }

  lemma AllEqualClose(x: real, faulty: set<nat>)
    ensures Close([x, x, x, x], faulty)
  {
    StillHealthy([x, x, x, x], faulty, x, x);
  }

  lemma StillHealthy(readings: seq<real>, faulty: set<nat>, lo: real, hi: real)
    requires |readings| == NUM_SENSORS && lo <= hi
    requires forall i :: 0 <= i < NUM_SENSORS && i !in faulty ==> readings[i] == lo
    ensures Healthy(readings, faulty, lo, hi)
  {
    forall i | 0 <= i < NUM_SENSORS && i !in faulty
      ensures HasPeer(readings, faulty, i) || Alone(faulty, i)
    {
      if j :| 0 <= j < NUM_SENSORS && j != i && j !in faulty {
        assert Agree(readings[i], readings[j]);
      }
    }
  }

  // ------------------------------------------- when the exception is raised

  /** Length of the current streak of queries in which IMUs `i` and `j` differ, after a streak of `m`. */
  function DifferStreak(qs: seq<Query>, i: nat, j: nat, m: nat): nat
    requires i < NUM_SENSORS && j < NUM_SENSORS
  {
    if qs == [] then m
    else if qs[|qs| - 1].readings[i] != qs[|qs| - 1].readings[j] then DifferStreak(qs[..|qs| - 1], i, j, m) + 1
    else 0
  }

  ghost predicate StreakReached(qs: seq<Query>, i: nat, j: nat, m: nat)
    requires i < NUM_SENSORS && j < NUM_SENSORS
  {
    exists k :: 0 <= k < |qs| && DifferStreak(qs[..k], i, j, m) > MAX_STREAK
  }

  ghost predicate LastPair(det: Detector, i: nat, j: nat) {
    && det.Valid() && det.outliers == 2
    && i < NUM_SENSORS && j < NUM_SENSORS && i != j && det.reliable[i] && det.reliable[j]
  }

  function LongerStreak(det: Detector, i: nat, j: nat): nat
    requires det.Valid() && i < NUM_SENSORS && j < NUM_SENSORS
  {
    if det.counter[i] < det.counter[j] then det.counter[j] else det.counter[i]
  }

  /** One query with two IMUs left: both are flagged or neither. */
  lemma LastPairStep(s: Fusion, q: Query, i: nat, j: nat)
    requires s.Valid() && LastPair(s.det, i, j)
    ensures var det, differ := Next(s, q).det, q.readings[i] != q.readings[j];
      var m := if differ then LongerStreak(s.det, i, j) + 1 else 0;
      && LongerStreak(det, i, j) == m
      && (m <= MAX_STREAK ==> LastPair(det, i, j))
      && (m > MAX_STREAK ==> det.outliers > 2)
  {
    FlaggedWithTwo(s.det, q.readings, i, j);
    FlaggedWithTwo(s.det, q.readings, j, i);
    UnreliableOfFour(s.det.reliable);
    UnreliableOfFour(Next(s, q).det.reliable);
  }

  lemma StreakReachedStep(qs: seq<Query>, i: nat, j: nat, m: nat)
    requires i < NUM_SENSORS && j < NUM_SENSORS && qs != []
    ensures StreakReached(qs, i, j, m) <==>
      StreakReached(qs[..|qs| - 1], i, j, m) || DifferStreak(qs[..|qs| - 1], i, j, m) > MAX_STREAK
  {
    hide DifferStreak;
    var init := qs[..|qs| - 1];
    assert forall k :: 0 <= k < |init| ==> init[..k] == qs[..k];
  }

  lemma {:induction false} PairRuns(s: Fusion, qs: seq<Query>, i: nat, j: nat)
    requires s.Valid() && LastPair(s.det, i, j) && LongerStreak(s.det, i, j) <= MAX_STREAK
    ensures var o, m := Run(s, qs), LongerStreak(s.det, i, j);
      && (o.Raised? <==> StreakReached(qs, i, j, m))
      && (o.Running? && DifferStreak(qs, i, j, m) > MAX_STREAK ==> o.state.det.outliers > 2)
      && (o.Running? && DifferStreak(qs, i, j, m) <= MAX_STREAK ==>
            LastPair(o.state.det, i, j) && LongerStreak(o.state.det, i, j) == DifferStreak(qs, i, j, m))
  {
    if qs != [] {
      hide Next, LastPair, LongerStreak, StreakReached;
      var init := qs[..|qs| - 1];
      PairRuns(s, init, i, j);
      StreakReachedStep(qs, i, j, LongerStreak(s.det, i, j));
      if Run(s, init).Running? && DifferStreak(init, i, j, LongerStreak(s.det, i, j)) <= MAX_STREAK {
        LastPairStep(Run(s, init).state, qs[|qs| - 1], i, j);
      }
    }
  }

  lemma {:induction false} RunAppend(s: Fusion, ps: seq<Query>, qs: seq<Query>)
    requires s.Valid() && Run(s, ps).Running?
    ensures Run(s, ps + qs) == Run(Run(s, ps).state, qs)
  {
    hide Run, TryNext, Fusion.Valid;
    if qs == [] {
      assert ps + qs == ps;
      RunOfNone(Run(s, ps).state);
    } else {
      var init, q := qs[..|qs| - 1], qs[|qs| - 1];
      RunAppend(s, ps, init);
      assert ps + qs == ps + init + [q] && qs == init + [q];
      RunOnceMore(s, ps + init, q);
      RunOnceMore(Run(s, ps).state, init, q);
    }
  }

  /** Over any run a reliable IMU's counter is at most 1000, and the detector is
      critical exactly when at least two IMUs are out. */
  lemma {:induction false} CountersBounded(s: Fusion, qs: seq<Query>)
    requires Initial(s) && Run(s, qs).Running?
    ensures var det := Run(s, qs).state.det;
      && (forall i :: 0 <= i < NUM_SENSORS && det.reliable[i] ==> det.counter[i] <= MAX_STREAK)
      && (det.critical <==> det.outliers >= 2)
  {
    UnreliableOfFour(FRESH.reliable);
    if qs != [] {
      CountersBounded(s, qs[..|qs| - 1]);
      UnreliableOfFour(Run(s, qs[..|qs| - 1]).state.det.reliable);
      UnreliableOfFour(Run(s, qs).state.det.reliable);
    }
  }

  /** Once queries `ps` have left two IMUs, the module is in critical failure, and the
      run ends in the exception exactly when before the last of the further queries
      the two have differed in 1001 queries in a row, earlier ones included. */
  lemma RaisedExactly(s: Fusion, ps: seq<Query>, qs: seq<Query>, i: nat, j: nat)
    requires Initial(s) && Run(s, ps).Running? && LastPair(Run(s, ps).state.det, i, j)
    ensures var det := Run(s, ps).state.det;
      && det.critical
      && (Run(s, ps + qs).Raised? <==> StreakReached(qs, i, j, LongerStreak(det, i, j)))
  {
    hide Next, StreakReached;
    CountersBounded(s, ps);
    RunAppend(s, ps, qs);
    PairRuns(Run(s, ps).state, qs, i, j);
  }
}
