/** The 1x1 Kalman filter of one IMU axis, and the scalar filter template.

    Navigation only builds one-dimensional filters, so matrices are numbers
    here. `Correct` is the step that both classes are proved to make; the lemmas
    are about one step and about whole runs of it. */
module Kalman {
  import opened Arithmetic

  /** State estimate and its error covariance. */
  datatype Estimate = Estimate(x: real, p: real)

  const INITIAL_ERROR_VARIANCE := 0.5
  const STATE_TRANSITION_VARIANCE := 0.02
  const TRACK_MEASUREMENT_VARIANCE := 0.001

  /** Gain on the innovation when the covariance before prediction is `p`. */
  function Gain(p: real, q: real, r: real): real
    requires p + q + r != 0.0
  {
    Div(p + q, p + q + r)
  }

  function Correct(e: Estimate, z: real, q: real, r: real): Estimate
    requires e.p + q + r != 0.0
  {
    var k := Gain(e.p, q, r);
    Estimate(e.x + Times(k, z - e.x), Times(1.0 - k, e.p + q))
  }

  /** The filter after measurements `zs`, oldest first. */
  function Run(e: Estimate, zs: seq<real>, q: real, r: real): (f: Estimate)
    requires q > 0.0 && r >= 0.0 && e.p >= 0.0
    ensures f.p >= 0.0
    ensures zs != [] ==> f.p <= r
  {
    if zs == [] then e
    else
      var d := Run(e, zs[..|zs| - 1], q, r);
      StepInvariant(d, zs[|zs| - 1], q, r);
      Correct(d, zs[|zs| - 1], q, r)
  }

  /** The share of the old estimate that a correction keeps. */
  lemma RetainedShare(p: real, q: real, r: real)
    requires q > 0.0 && r >= 0.0 && p >= 0.0
    ensures 1.0 - Gain(p, q, r) == Div(r, p + q + r)
    ensures 0.0 < Gain(p, q, r) <= 1.0
    ensures Times(1.0 - Gain(p, q, r), p + q) == Times(Gain(p, q, r), r)
    ensures 1.0 - Gain(p, q, r) <= Rate(q, r)
  {
    var s, k := p + q, Gain(p, q, r);
    assert k * (s + r) == s;
    assert Times(1.0 - k, s + r) == r;
    DivIs(r, s + r, 1.0 - k);
    DivAntitone(r, q + r, s + r);
  }

  /** One step: the gain is in (0, 1], the covariance in [0, r], and the new
      estimate lies between the old one and the measurement. */
  lemma StepInvariant(e: Estimate, z: real, q: real, r: real)
    requires q > 0.0 && r >= 0.0 && e.p >= 0.0
    ensures 0.0 < Gain(e.p, q, r) <= 1.0
    ensures 0.0 <= Correct(e, z, q, r).p <= r
    ensures e.x <= z ==> e.x <= Correct(e, z, q, r).x <= z
    ensures z <= e.x ==> z <= Correct(e, z, q, r).x <= e.x
  {
    hide Gain, Times, Rate;
    var k := Gain(e.p, q, r);
    RetainedShare(e.p, q, r);
    Share(k, r);
    Share(k, z - e.x);
  }

  /** What a correction is: the new estimate is the mean of the old one and the measurement,
      weighted by their precisions, and its covariance is half their harmonic mean. */
  lemma PrecisionWeighted(e: Estimate, z: real, q: real, r: real)
    requires e.p + q + r != 0.0
    ensures var f := Correct(e, z, q, r);
      && (f.x - e.x) * r == (z - f.x) * (e.p + q)
      && f.p * (e.p + q + r) == (e.p + q) * r
  {
    var s, k := e.p + q, Gain(e.p, q, r);
    DivTimes(s, s + r);
    GainAlgebra(k, s, r, z - e.x);
  }

  lemma GainAlgebra(k: real, s: real, r: real, d: real)
    requires k * (s + r) == s
    ensures Times(k, d) * r == (d - Times(k, d)) * s
    ensures Times(1.0 - k, s) * (s + r) == s * r
  {
    assert (1.0 - k) * s == k * r;
    assert Times(k, d) * r == d * (k * r) == d * ((1.0 - k) * s);
  }

  /** How badly `y` fits an estimate `x` of variance `s` and a measurement `z` of variance `r`,
      scaled by both variances. */
  function Misfit(y: real, x: real, s: real, z: real, r: real): real {
    Times(Square(y - x), r) + Times(Square(y - z), s)
  }

  ghost predicate FitsBest(m: real, x: real, s: real, z: real, r: real) {
    forall y :: y != m ==> Misfit(m, x, s, z, r) < Misfit(y, x, s, z, r)
  }

  /** The point that satisfies the equation of the weighted mean fits best, and alone. */
  lemma WeightedMeanFits(m: real, x: real, s: real, z: real, r: real, y: real)
    requires s > 0.0 && r >= 0.0 && (m - x) * r == (z - m) * s && y != m
    ensures Misfit(m, x, s, z, r) < Misfit(y, x, s, z, r)
  {
    var d := y - m;
    Shifted(m - x, d, r);
    Shifted(m - z, d, s);
    CrossTermsCancel(m - x, m - z, d, r, s);
    PositiveSquare(d);
    TimesNonNegative(Square(d), r);
    TimesPositive(Square(d), s);
    hide Square, Times;
    assert y - x == m - x + d && y - z == m - z + d;
  }

  lemma Shifted(a: real, d: real, w: real)
    ensures Times(Square(a + d), w) == Times(Square(a), w) + 2.0 * Times(d, Times(a, w)) + Times(Square(d), w)
  {
    assert Square(a + d) == Square(a) + 2.0 * (d * a) + Square(d);
    assert Times(d, Times(a, w)) == (d * a) * w;
  }

  lemma CrossTermsCancel(a: real, b: real, d: real, r: real, s: real)
    requires a * r == -b * s
    ensures Times(d, Times(a, r)) + Times(d, Times(b, s)) == 0.0
  {
    var c := Times(a, r);
    assert Times(b, s) == -c;
    assert d * c + d * -c == d * (c + -c);
  }

  lemma PositiveSquare(d: real)
    requires d != 0.0
    ensures Square(d) > 0.0
  {
    TimesPositive(Abs(d), Abs(d));
  }

  lemma TimesPositive(a: real, b: real)
    requires a > 0.0 && b > 0.0
    ensures Times(a, b) > 0.0
  {
  }

  /** A correction gives the estimate of least misfit. */
  lemma BestFit(e: Estimate, z: real, q: real, r: real)
    requires q > 0.0 && r >= 0.0 && e.p >= 0.0
    ensures FitsBest(Correct(e, z, q, r).x, e.x, e.p + q, z, r)
  {
    PrecisionWeighted(e, z, q, r);
    hide Correct, Misfit;
    var m, s := Correct(e, z, q, r).x, e.p + q;
    forall y | y != m ensures Misfit(m, e.x, s, z, r) < Misfit(y, e.x, s, z, r) {
      WeightedMeanFits(m, e.x, s, z, r, y);
    }
  }

  /** The estimate never leaves the hull of its start and the measurements. */
  lemma {:induction false} EstimateInHull(e: Estimate, zs: seq<real>, q: real, r: real, lo: real, hi: real)
    requires q > 0.0 && r >= 0.0 && e.p >= 0.0
    requires lo <= e.x <= hi && forall i :: 0 <= i < |zs| ==> lo <= zs[i] <= hi
    ensures lo <= Run(e, zs, q, r).x <= hi
  {
    if zs != [] {
      hide Correct, Gain;
      var init, z := zs[..|zs| - 1], zs[|zs| - 1];
      EstimateInHull(e, init, q, r, lo, hi);
      StepInvariant(Run(e, init, q, r), z, q, r);
    }
  }

  /** The factor by which one step shrinks a distance between estimates, at most. */
  function Rate(q: real, r: real): real
    requires q + r != 0.0
  {
    Div(r, q + r)
  }

  lemma RateIsContraction(q: real, r: real)
    requires q > 0.0 && r >= 0.0
    ensures 0.0 <= Rate(q, r) < 1.0
  {
  }

  /** Covariances of two filters approach each other by the product of the shares they keep. */
  lemma CovarianceStep(p1: real, p2: real, q: real, r: real)
    requires q > 0.0 && r >= 0.0 && p1 >= 0.0 && p2 >= 0.0
    ensures Abs(Times(1.0 - Gain(p1, q, r), p1 + q) - Times(1.0 - Gain(p2, q, r), p2 + q))
         <= Times(Square(Rate(q, r)), Abs(p1 - p2))
  {
    var w1, w2 := Div(r, p1 + q + r), Div(r, p2 + q + r);
    RetainedShare(p1, q, r);
    RetainedShare(p2, q, r);
    DivTimes(r, p1 + q + r);
    DivTimes(r, p2 + q + r);
    hide Gain, Rate, Div;
    CovarianceAlgebra(p1 + q, p2 + q, r, w1, w2);
    assert p1 + q - (p2 + q) == p1 - p2;
    TimesMonotone(w1, Rate(q, r), w2, Rate(q, r));
    Contract(Times(w1, w2), Square(Rate(q, r)), p1 - p2);
  }

  lemma CovarianceAlgebra(s1: real, s2: real, r: real, w1: real, w2: real)
    requires Times(w1, s1 + r) == r == Times(w2, s2 + r)
    ensures Times(1.0 - w1, r) - Times(1.0 - w2, r) == Times(Times(w1, w2), s1 - s2)
  {
    assert w2 * (w1 * (s1 + r)) == w2 * r;
    assert w1 * (w2 * (s2 + r)) == w1 * r;
  }

  lemma Contract(w: real, rate: real, d: real)
    requires 0.0 <= w <= rate
    ensures Abs(Times(w, d)) <= Times(rate, Abs(d))
  {
    TimesMonotone(w, rate, Abs(d), Abs(d));
    assert w * -d == -(w * d);
  }

  /** Runs that differ in their initial covariance converge. */
  lemma {:induction false} CovarianceConverges(e1: Estimate, e2: Estimate, zs: seq<real>, q: real, r: real)
    requires q > 0.0 && r >= 0.0 && e1.p >= 0.0 && e2.p >= 0.0
    ensures Abs(Run(e1, zs, q, r).p - Run(e2, zs, q, r).p)
         <= Times(Pow(Square(Rate(q, r)), |zs|), Abs(e1.p - e2.p))
  {
    var c, d := Square(Rate(q, r)), Abs(e1.p - e2.p);
    if zs != [] {
      hide Gain, Times, Rate, Square, Abs;
      var init := zs[..|zs| - 1];
      CovarianceConverges(e1, e2, init, q, r);
      CovarianceStep(Run(e1, init, q, r).p, Run(e2, init, q, r).p, q, r);
      SquareNonNegative(Rate(q, r));
      Chain(c, Abs(Run(e1, init, q, r).p - Run(e2, init, q, r).p), Pow(c, |init|), d);
    }
  }

  lemma Chain(c: real, a: real, b: real, d: real)
    requires c >= 0.0 && a <= Times(b, d)
    ensures Times(c, a) <= Times(Times(c, b), d)
  {
    TimesNonNegative(c, Times(b, d) - a);
  }

  /** Runs that differ in their initial estimate converge. */
  lemma {:induction false} EstimateConverges(x1: real, x2: real, p: real, zs: seq<real>, q: real, r: real)
    requires q > 0.0 && r >= 0.0 && p >= 0.0
    ensures Run(Estimate(x1, p), zs, q, r).p == Run(Estimate(x2, p), zs, q, r).p
    ensures Abs(Run(Estimate(x1, p), zs, q, r).x - Run(Estimate(x2, p), zs, q, r).x)
         <= Times(Pow(Rate(q, r), |zs|), Abs(x1 - x2))
  {
    if zs != [] {
      var init, z := zs[..|zs| - 1], zs[|zs| - 1];
      var f1, f2 := Run(Estimate(x1, p), init, q, r), Run(Estimate(x2, p), init, q, r);
      EstimateConverges(x1, x2, p, init, q, r);
      hide Gain, Times, Rate, Abs, Run;
      var k := Gain(f1.p, q, r);
      RetainedShare(f1.p, q, r);
      RateIsContraction(q, r);
      EstimateAlgebra(f1.x, f2.x, z, k);
      Contract(1.0 - k, Rate(q, r), f1.x - f2.x);
      Chain(Rate(q, r), Abs(f1.x - f2.x), Pow(Rate(q, r), |init|), Abs(x1 - x2));
    }
  }

  lemma EstimateAlgebra(x1: real, x2: real, z: real, k: real)
    ensures x1 + Times(k, z - x1) - (x2 + Times(k, z - x2)) == Times(1.0 - k, x1 - x2)
  {
  }

  /** The filter of one IMU: navigation::KalmanFilter with its 1x1 KalmanMultivariate. */
  class KalmanFilter {
    var a: real
    var q: real
    var h: real
    var r: real
    var x: real
    var p: real

    ghost predicate Valid()
      reads this
    {
      a == 1.0 && h == 1.0 && q > 0.0 && r >= 0.0 && p >= 0.0
    }

    ghost function Value(): Estimate
      reads this
    {
      Estimate(x, p)
    }

    constructor Setup()
      ensures Valid() && Value() == Estimate(0.0, 0.5) && q == 0.02 && r == 0.001
    {
      a, q, h, r := 1.0, STATE_TRANSITION_VARIANCE, 1.0, TRACK_MEASUREMENT_VARIANCE;
      x, p := 0.0, INITIAL_ERROR_VARIANCE;
    }

    method UpdateMeasurementCovariance(variance: real)
      requires Valid() && variance >= 0.0
      modifies this`r
      ensures Valid() && r == variance
    {
      r := variance;
    }

    method Predict()
      requires Valid()
      modifies this`x, this`p
      ensures x == old(x) && p == old(p) + q
    {
      x := a * x;
      p := a * p * a + q;
    }

    method CorrectWith(z: real)
      requires a == h == 1.0 && q > 0.0 && p >= q && r >= 0.0
      modifies this`x, this`p
      ensures Valid() && Value() == Correct(Estimate(old(x), old(p) - q), z, q, r)
    {
      StepInvariant(Estimate(x, p - q), z, q, r);
      var s := h * p * h + r;
      var k := Times(p * h, Div(1.0, s));
      InverseGain(p, s);
      x := x + Times(k, z - h * x);
      p := Times(1.0 - k * h, p);
    }

    method Filter(z: real) returns (estimate: real)
      requires Valid()
      modifies this`x, this`p
      ensures Valid() && Value() == Correct(old(Value()), z, q, r)
      ensures estimate == x
      ensures (x - old(x)) * r == (z - x) * (old(p) + q)
      ensures p * (old(p) + q + r) == (old(p) + q) * r
      ensures FitsBest(x, old(x), old(p) + q, z, r)
    {
      PrecisionWeighted(Value(), z, q, r);
      BestFit(Value(), z, q, r);
      hide Correct, FitsBest;
      Predict();
      CorrectWith(z);
      estimate := x;
    }
  }

  lemma InverseGain(p: real, s: real)
    requires s != 0.0
    ensures Times(p, Div(1.0, s)) == Div(p, s)
  {
  }

  /** utils::math::Kalman<T>: the scalar template makes the same steps, from covariance 0. */
  class ScalarKalman {
    var kalmanGain: real
    var processNoise: real
    var filteredValue: real
    var errorCovariance: real
    var measurementNoise: real

    ghost function Value(): Estimate
      reads this
    {
      Estimate(filteredValue, errorCovariance)
    }

    constructor (inputValue: real, noise: real, process: real)
      ensures Value() == Estimate(inputValue, 0.0)
      ensures measurementNoise == noise && processNoise == process
    {
      kalmanGain, errorCovariance := 0.0, 0.0;
      processNoise, filteredValue, measurementNoise := process, inputValue, noise;
    }

    method Filter(input: real) returns (filtered: real)
      requires errorCovariance + processNoise + measurementNoise != 0.0
      modifies this`kalmanGain, this`filteredValue, this`errorCovariance
      ensures Value() == Correct(old(Value()), input, processNoise, measurementNoise)
      ensures filtered == filteredValue
      ensures kalmanGain == Gain(old(errorCovariance), processNoise, measurementNoise)
      ensures (filteredValue - old(filteredValue)) * measurementNoise
           == (input - filteredValue) * (old(errorCovariance) + processNoise)
      ensures errorCovariance * (old(errorCovariance) + processNoise + measurementNoise)
           == (old(errorCovariance) + processNoise) * measurementNoise
      ensures kalmanGain * (old(errorCovariance) + processNoise + measurementNoise)
           == old(errorCovariance) + processNoise
    {
      PrecisionWeighted(Value(), input, processNoise, measurementNoise);
      DivTimes(errorCovariance + processNoise, errorCovariance + processNoise + measurementNoise);
      errorCovariance := errorCovariance + processNoise;
      kalmanGain := Div(errorCovariance, errorCovariance + measurementNoise);
      filteredValue := filteredValue + Times(kalmanGain, input - filteredValue);
      errorCovariance := Times(1.0 - kalmanGain, errorCovariance);
      filtered := filteredValue;
    }
  }
}
