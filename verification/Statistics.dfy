/** Running and rolling statistics of a stream of readings.

    The batch definitions below (sum, mean, sum of squared deviations, sample
    variance) are written from scratch over a sequence; the two classes keep
    the same quantities up to date one reading at a time, and `Valid` says that
    they agree with the batch definitions after every update. */
module Statistics {
  import opened Arithmetic

  function Sum(xs: seq<real>): real {
    if xs == [] then 0.0 else xs[0] + Sum(xs[1..])
  }

  /** Sum of the squared deviations of `xs` from the reference value `m`. */
  function Deviations(xs: seq<real>, m: real): real {
    if xs == [] then 0.0 else Square(xs[0] - m) + Deviations(xs[1..], m)
  }

  function Mean(xs: seq<real>): real {
    if xs == [] then 0.0 else Ratio(Sum(xs), |xs|)
  }

  /** Sample variance; 0 while there is at most one reading. */
  function Variance(xs: seq<real>): real {
    if |xs| < 2 then 0.0 else Ratio(Deviations(xs, Mean(xs)), |xs| - 1)
  }

  /** The readings that a window of the given size holds after `xs`. */
  function Last<T>(xs: seq<T>, size: nat): seq<T> {
    if |xs| <= size then xs else xs[|xs| - size..]
  }

  lemma {:induction false} SumConcat(xs: seq<real>, ys: seq<real>)
    ensures Sum(xs + ys) == Sum(xs) + Sum(ys)
  {
    if xs == [] {
      assert xs + ys == ys;
    } else {
      assert (xs + ys)[1..] == xs[1..] + ys;
      SumConcat(xs[1..], ys);
    }
  }

  lemma {:induction false} DeviationsConcat(xs: seq<real>, ys: seq<real>, m: real)
    ensures Deviations(xs + ys, m) == Deviations(xs, m) + Deviations(ys, m)
  {
    if xs == [] {
      assert xs + ys == ys;
    } else {
      assert (xs + ys)[1..] == xs[1..] + ys;
      DeviationsConcat(xs[1..], ys, m);
    }
  }

  lemma {:induction false} DeviationsNonNegative(xs: seq<real>, m: real)
    ensures Deviations(xs, m) >= 0.0
  {
    if xs != [] {
      hide Square;
      SquareNonNegative(xs[0] - m);
      DeviationsNonNegative(xs[1..], m);
    }
  }

  /** Deviations from `m` through those from 0, for `n` readings. */
  lemma {:induction false} DeviationsFromZero(xs: seq<real>, m: real, n: real)
    requires n == |xs| as real
    ensures Deviations(xs, m) == Deviations(xs, 0.0) - 2.0 * Times(m, Sum(xs)) + Times(n, Square(m))
  {
    if xs == [] {
    } else {
      hide Times, Square;
      DeviationsFromZero(xs[1..], m, n - 1.0);
      ExpandSquare(xs[0], m, Sum(xs[1..]), n);
    }
  }

  lemma ExpandSquare(x: real, m: real, s: real, n: real)
    ensures Square(x - m) - 2.0 * Times(m, s) + Times(n - 1.0, Square(m))
         == Square(x - 0.0) - 2.0 * Times(m, x + s) + Times(n, Square(m))
  {
  }

  /** About the mean `m` of `n` readings. */
  lemma DeviationsAboutMean(xs: seq<real>, m: real, n: real)
    requires n == |xs| as real && Times(n, m) == Sum(xs)
    ensures Deviations(xs, m) == Deviations(xs, 0.0) - Times(n, Square(m))
  {
    hide Times, Square, Deviations;
    DeviationsFromZero(xs, m, n);
    TimesSquare(n, m);
  }

  lemma TimesSquare(n: real, m: real)
    ensures Times(m, Times(n, m)) == Times(n, Square(m))
  {
  }

  /** The mean times the count is the sum. */
  lemma MeanTimesCount(xs: seq<real>, m: real)
    requires m == Mean(xs)
    ensures Times(|xs| as real, m) == Sum(xs)
  {
  }

  /** Sum of the squares. */
  function SumOfSquares(xs: seq<real>): real {
    if xs == [] then 0.0 else xs[0] * xs[0] + SumOfSquares(xs[1..])
  }

  lemma {:induction false} SquaresAreDeviations(xs: seq<real>)
    ensures SumOfSquares(xs) == Deviations(xs, 0.0)
  {
    if xs != [] {
      SquaresAreDeviations(xs[1..]);
      assert xs[0] - 0.0 == xs[0];
    }
  }

  /** The sample variance told without the mean: n (n - 1) times it is n times the sum of the
      squares less the square of the sum. */
  lemma VarianceBySums(xs: seq<real>)
    requires |xs| >= 2
    ensures var n := |xs| as real;
      Times(Times(n, n - 1.0), Variance(xs)) == Times(n, SumOfSquares(xs)) - Square(Sum(xs))
  {
    var n, m := |xs| as real, Mean(xs);
    MeanTimesCount(xs, m);
    DeviationsAboutMean(xs, m, n);
    SquaresAreDeviations(xs);
    RatioTimes(Deviations(xs, m), |xs| - 1);
    hide Sum, Deviations, SumOfSquares, Mean, Ratio, Times, Square;
    SumsAlgebra(n, m, Variance(xs), Deviations(xs, m), Sum(xs), SumOfSquares(xs));
  }

  lemma RatioTimes(a: real, n: nat)
    requires n != 0
    ensures Times(n as real, Ratio(a, n)) == a
  {
  }

  lemma SumsAlgebra(n: real, m: real, v: real, d: real, s: real, q: real)
    requires Times(n - 1.0, v) == d && d == q - Times(n, Square(m)) && Times(n, m) == s
    ensures Times(Times(n, n - 1.0), v) == Times(n, q) - Square(s)
  {
    assert n * (n - 1.0) * v == n * Times(n - 1.0, v);
    assert n * Times(n, Square(m)) == Times(n, m) * Times(n, m);
  }

  /** Welford's step: appending `x` to readings of mean `m` adds the product of
      its deviations from the old and the new mean to the sum of squares. */
  lemma Welford(xs: seq<real>, x: real, m: real, m': real)
    requires m == Mean(xs) && m' == Ratio(Sum(xs) + x, |xs| + 1)
    ensures Sum(xs + [x]) == Sum(xs) + x
    ensures m' == Mean(xs + [x])
    ensures Deviations(xs + [x], m') == Deviations(xs, m) + Times(x - m, x - m')
  {
    hide Ratio, Times, Square;
    var n := |xs| as real;
    SumConcat(xs, [x]);
    assert Sum(xs + [x]) == Sum(xs) + x;
    MeanTimesCount(xs, m);
    MeanTimesCount(xs + [x], m');
    DeviationsAboutMean(xs, m, n);
    DeviationsAboutMean(xs + [x], m', n + 1.0);
    DeviationsConcat(xs, [x], 0.0);
    assert Deviations([x], 0.0) == Square(x - 0.0);
    WelfordAlgebra(n, m, m', x);
  }

  lemma WelfordAlgebra(n: real, m: real, m': real, x: real)
    requires Times(n + 1.0, m') == Times(n, m) + x
    ensures Square(x - 0.0) - Times(n + 1.0, Square(m')) + Times(n, Square(m)) == Times(x - m, x - m')
  {
    assert m' * ((n + 1.0) * m') == m' * (n * m + x);
    assert m * ((n + 1.0) * m') == m * (n * m + x);
  }

  /** The rolling step: the oldest reading of the window gives way to `x`. */
  lemma Roll(w: seq<real>, x: real, m: real, m': real)
    requires |w| >= 2 && m == Mean(w) && m' == Ratio(Sum(w) + x - w[0], |w|)
    ensures Sum(w[1..] + [x]) == Sum(w) + x - w[0]
    ensures m' == Mean(w[1..] + [x])
    ensures Deviations(w[1..] + [x], m')
         == Deviations(w, m) + Times(x - w[0], x - m' + w[0] - m)
  {
    hide Ratio, Times, Square;
    var n, w' := |w| as real, w[1..] + [x];
    SumConcat(w[1..], [x]);
    assert Sum(w') == Sum(w) + x - w[0];
    MeanTimesCount(w, m);
    MeanTimesCount(w', m');
    DeviationsAboutMean(w, m, n);
    DeviationsAboutMean(w', m', n);
    DeviationsConcat(w[1..], [x], 0.0);
    assert Deviations([x], 0.0) == Square(x - 0.0);
    assert Deviations(w, 0.0) == Square(w[0] - 0.0) + Deviations(w[1..], 0.0);
    RollingAlgebra(n, m, m', w[0], x);
  }

  lemma RollingAlgebra(n: real, m: real, m': real, f: real, x: real)
    requires Times(n, m') == Times(n, m) + x - f
    ensures Square(x - 0.0) - Square(f - 0.0) - Times(n, Square(m')) + Times(n, Square(m))
         == Times(x - f, x - m' + f - m)
  {
  }

  lemma RollVariance(w: seq<real>, w': seq<real>, d: real)
    requires |w| == |w'| >= 2 && Deviations(w', Mean(w')) == Deviations(w, Mean(w)) + d
    ensures Variance(w') == Variance(w) + Ratio(d, |w| - 1)
  {
    hide Mean, Deviations, Ratio;
    RatioSum(Deviations(w, Mean(w)), d, |w| - 1);
  }

  lemma VarianceNonNegative(xs: seq<real>)
    ensures Variance(xs) >= 0.0
  {
    hide Mean, Ratio, Deviations;
    if |xs| >= 2 {
      DeviationsNonNegative(xs, Mean(xs));
      RatioNonNegative(Deviations(xs, Mean(xs)), |xs| - 1);
    }
  }

  lemma Singleton(x: real, m: real)
    ensures Sum([x]) == x && Deviations([x], m) == Square(x - m)
  {
    assert [x][1..] == [];
  }

  /** Where a reading stands does not matter to the sums. */
  lemma SumsWithout(front: seq<real>, x: real, back: seq<real>, m: real)
    ensures Sum(front + [x] + back) == x + Sum(front + back)
    ensures Deviations(front + [x] + back, m) == Square(x - m) + Deviations(front + back, m)
  {
    hide Square, Sum, Deviations;
    Singleton(x, m);
    SumConcat(front + [x], back);
    SumConcat(front, [x]);
    SumConcat(front, back);
    DeviationsConcat(front + [x], back, m);
    DeviationsConcat(front, [x], m);
    DeviationsConcat(front, back, m);
  }

  lemma TakeOut(ys: seq<real>, i: nat, m: real)
    requires i < |ys|
    ensures var rest := ys[..i] + ys[i + 1..];
      && multiset(rest) == multiset(ys) - multiset{ys[i]}
      && Sum(ys) == ys[i] + Sum(rest)
      && Deviations(ys, m) == Square(ys[i] - m) + Deviations(rest, m)
  {
    hide Square, Sum, Deviations;
    assert ys == ys[..i] + [ys[i]] + ys[i + 1..];
    SumsWithout(ys[..i], ys[i], ys[i + 1..], m);
  }

  /** The batch quantities, hence the running ones, do not depend on the order of the readings. */
  lemma {:induction false} SumsOrderIndependent(xs: seq<real>, ys: seq<real>, m: real)
    requires multiset(xs) == multiset(ys)
    ensures |xs| == |ys| && Sum(xs) == Sum(ys) && Deviations(xs, m) == Deviations(ys, m)
  {
    hide Square, Sum, Deviations;
    assert |multiset(xs)| == |xs| && |multiset(ys)| == |ys|;
    if xs != [] {
      assert xs[0] in multiset(ys);
      var i :| 0 <= i < |ys| && ys[i] == xs[0];
      TakeOut(xs, 0, m);
      TakeOut(ys, i, m);
      SumsOrderIndependent(xs[..0] + xs[1..], ys[..i] + ys[i + 1..], m);
    }
  }

  lemma OrderIndependent(xs: seq<real>, ys: seq<real>)
    requires multiset(xs) == multiset(ys)
    ensures Mean(xs) == Mean(ys) && Variance(xs) == Variance(ys)
  {
    hide Ratio, Sum, Deviations;
    SumsOrderIndependent(xs, ys, Mean(xs));
  }

  /** Bounds on every reading are bounds on the mean. */
  lemma MeanBounds(xs: seq<real>, lo: real, hi: real)
    requires xs != [] && forall i :: 0 <= i < |xs| ==> lo <= xs[i] <= hi
    ensures lo <= Mean(xs) <= hi
  {
    hide Ratio, Times;
    SumBounds(xs, lo, hi, |xs| as real);
    MeanTimesCount(xs, Mean(xs));
    DivideBounds(Mean(xs), lo, hi, |xs| as real);
  }

  lemma {:induction false} SumBounds(xs: seq<real>, lo: real, hi: real, n: real)
    requires n == |xs| as real
    requires forall i :: 0 <= i < |xs| ==> lo <= xs[i] <= hi
    ensures Times(n, lo) <= Sum(xs) <= Times(n, hi)
  {
    if xs == [] {
    } else {
      hide Times;
      SumBounds(xs[1..], lo, hi, n - 1.0);
      OneMore(n, lo);
      OneMore(n, hi);
    }
  }

  /** Welford's running statistics. `seen` is every reading so far. */
  class OnlineStatistics {
    ghost var seen: seq<real>
    var sum: real
    var mean: real
    var variance: real
    var n: nat
    var s: real

    ghost predicate Valid()
      reads this
    {
      && n == |seen|
      && sum == Sum(seen)
      && mean == Mean(seen)
      && s == Deviations(seen, mean)
      && variance == Variance(seen)
    }

    constructor ()
      ensures Valid() && seen == []
    {
      sum, mean, variance, n, s := 0.0, 0.0, 0.0, 0, 0.0;
      seen := [];
    }

    method Update(newValue: real)
      requires Valid()
      modifies this
      ensures Valid() && seen == old(seen) + [newValue]
      ensures s >= 0.0 && variance >= 0.0
    {
      hide Sum, Deviations, Times, Ratio, Square;
      ghost var m := mean;
      var delta := newValue - mean;
      n := n + 1;
      sum := sum + newValue;
      mean := Ratio(sum, n);
      s := s + Times(delta, newValue - mean);
      if n > 1 {
        variance := Ratio(s, n - 1);
      }
      Welford(seen, newValue, m, mean);
      seen := seen + [newValue];
      DeviationsNonNegative(seen, mean);
      VarianceNonNegative(seen);
    }
  }

  /** Statistics of the last `windowSize` readings. */
  class RollingStatistics {
    ghost var seen: seq<real>
    const windowSize: nat
    const online: OnlineStatistics
    var window: seq<real>
    var sum: real
    var mean: real
    var variance: real

    ghost predicate Valid()
      reads this, online
    {
      && windowSize >= 2
      && window == Last(seen, windowSize)
      && sum == Sum(window)
      && mean == Mean(window)
      && variance == Variance(window)
      && (|window| < windowSize ==> online.Valid() && online.seen == window)
    }

    constructor (size: nat)
      requires size >= 2
      ensures Valid() && seen == [] && windowSize == size && fresh(online)
    {
      windowSize := size;
      online := new OnlineStatistics();
      window, sum, mean, variance := [], 0.0, 0.0, 0.0;
      seen := [];
    }

    method Update(newValue: real)
      requires Valid()
      modifies this, online
      ensures Valid() && seen == old(seen) + [newValue]
      ensures variance >= 0.0
    {
      hide Sum, Deviations, Times, Ratio, Square;
      if |window| < windowSize {
        window := window + [newValue];
        online.Update(newValue);
        sum := online.sum;
        mean := online.mean;
        variance := online.variance;
      } else {
        var front := window[0];
        sum := sum + newValue - front;
        var newMean := Ratio(sum, windowSize);
        var change := Times(newValue - front, newValue - newMean + front - mean);
        variance := variance + Ratio(change, windowSize - 1);
        Roll(window, newValue, mean, newMean);
        RollVariance(window, window[1..] + [newValue], change);
        mean := newMean;
        window := window[1..];
        window := window + [newValue];
      }
      seen := seen + [newValue];
      VarianceNonNegative(window);
    }
  }

}
