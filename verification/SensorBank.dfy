/** One bank of four redundant sensors as navigation keeps it: which are
    reliable, how often each has been flagged in a row, and how many are out.
    Navigation has one bank of IMUs and one of wheel encoders. */
module SensorBanks {
  import opened Arithmetic
  import opened OutlierDetection
  import opened Medians

  /** What recording the verdict on one sensor does to the bookkeeping. */
  function RecordOne(det: Detector, i: nat, flagged: bool): (r: Detector)
    requires det.Valid() && i < NUM_SENSORS && (flagged ==> det.reliable[i])
    ensures r.Valid()
  {
    UnreliableOfFour(det.reliable);
    if flagged then
      var dropped := det.counter[i] + 1 > MAX_STREAK;
      var reliable := if dropped then det.reliable[i := false] else det.reliable;
      var outliers := if dropped then det.outliers + 1 else det.outliers;
      UnreliableOfFour(reliable);
      Detector(reliable, det.counter[i := det.counter[i] + 1], outliers, det.critical || outliers > 1)
    else
      det.(counter := det.counter[i := 0])
  }

  /** Verdicts recorded on the first `n` sensors in turn. */
  function RecordUpTo(det: Detector, data: Readings, f: Fences, n: nat): (r: Detector)
    requires det.Valid() && n <= NUM_SENSORS
    ensures r.Valid()
  {
    if n == 0 then det
    else
      var d := RecordUpTo(det, data, f, n - 1);
      RecordOne(d, n - 1, Flagged(d, data, f, n - 1))
  }

  lemma RecordedOne(det: Detector, i: nat, flagged: bool)
    requires det.Valid() && i < NUM_SENSORS && (flagged ==> det.reliable[i])
    ensures var r := RecordOne(det, i, flagged);
      && r.reliable == det.reliable[i := det.reliable[i] && !(flagged && det.counter[i] >= MAX_STREAK)]
      && r.counter == det.counter[i := if flagged then det.counter[i] + 1 else 0]
  {
    hide Unreliable;
  }

  /** Sensor by sensor: what has been recorded, and that later sensors are untouched. */
  lemma {:induction false} RecordedEach(det: Detector, data: Readings, f: Fences, n: nat)
    requires det.Valid() && n <= NUM_SENSORS
    ensures var r := RecordUpTo(det, data, f, n);
      && (forall k :: n <= k < NUM_SENSORS ==> r.reliable[k] == det.reliable[k] && r.counter[k] == det.counter[k])
      && (forall k :: 0 <= k < n ==>
            && r.reliable[k] == (det.reliable[k] && !(Flagged(det, data, f, k) && det.counter[k] >= MAX_STREAK))
            && r.counter[k] == if Flagged(det, data, f, k) then det.counter[k] + 1 else 0)
  {
    if n > 0 {
      RecordedEach(det, data, f, n - 1);
      hide Unreliable, Exceeds, RecordOne;
      var d := RecordUpTo(det, data, f, n - 1);
      assert Flagged(d, data, f, n - 1) == Flagged(det, data, f, n - 1);
      RecordedOne(d, n - 1, Flagged(d, data, f, n - 1));
    }
  }

  /** Outlier count and critical status so far. */
  lemma {:induction false} RecordedSoFar(det: Detector, data: Readings, f: Fences, n: nat)
    requires det.Valid() && n <= NUM_SENSORS
    ensures var r := RecordUpTo(det, data, f, n);
      && (forall k :: n <= k < NUM_SENSORS ==> r.reliable[k] == det.reliable[k] && r.counter[k] == det.counter[k])
      && r.outliers >= det.outliers
      && (r.critical <==> det.critical || (r.outliers > 1 && exists k :: 0 <= k < n && Flagged(det, data, f, k)))
      && (r.outliers > det.outliers ==> exists k :: 0 <= k < n && Flagged(det, data, f, k))
  {
    RecordedEach(det, data, f, n);
    if n > 0 {
      RecordedSoFar(det, data, f, n - 1);
      hide Unreliable, Exceeds;
      var d := RecordUpTo(det, data, f, n - 1);
      assert Flagged(d, data, f, n - 1) == Flagged(det, data, f, n - 1);
    }
  }

  /** Recording all four verdicts is one step of the detector. */
  lemma RecordAll(det: Detector, data: Readings, f: Fences)
    requires det.Valid()
    ensures RecordUpTo(det, data, f, NUM_SENSORS) == Step(det, data, f)
  {
    var r := RecordUpTo(det, data, f, NUM_SENSORS);
    RecordedEach(det, data, f, NUM_SENSORS);
    RecordedSoFar(det, data, f, NUM_SENSORS);
    assert r.reliable == Step(det, data, f).reliable;
    assert r.counter == Step(det, data, f).counter;
  }

  /** With three or four reliable sensors, exactly the readings more than 6 above or below all other
      reliable ones are replaced, by the mean of those left without the extremes. */
  lemma ReplacedByMean(det: Detector, data: Readings, i: nat)
    requires det.Valid() && det.outliers <= 1 && i < NUM_SENSORS
    ensures var s := ReliableSorted(det, data);
      var written := Replaced(det, data, FencesOf(s), Median(s, det.outliers))[i];
      if det.reliable[i] && FarFromAll(det, data, i)
      then TrimmedMean(written, det.reliable, data) else written == data[i]
  {
    MedianIsTrimmedMean(det, data);
    hide ReliableSorted, FencesOf, Median, FarFromAll, TrimmedMean;
    if det.reliable[i] {
      FlaggedExactly(det, data, i);
    }
  }

  /** With two, both become what the median slot happens to hold as soon as they differ. */
  lemma ReplacedOfTwo(det: Detector, data: Readings, unset: real, i: nat, j: nat)
    requires det.Valid() && det.outliers == 2 && i < NUM_SENSORS && j < NUM_SENSORS && i != j
    requires det.reliable[i] && det.reliable[j]
    ensures Replaced(det, data, FencesOf(ReliableSorted(det, data)), unset)[i]
         == if data[i] != data[j] then unset else data[i]
  {
    FlaggedWithTwo(det, data, i, j);
  }

  // ---------------------------------------------------------------- encoders

  /** Sum of two 32-bit counters with wrap-around. */
  function WrapSum(a: real, b: real): real {
    if a + b >= WORD as real then a + b - WORD as real else a + b
  }

  /** One 32-bit counter per wheel encoder. */
  type Counters = d: seq<nat> | |d| == NUM_SENSORS && forall i :: 0 <= i < NUM_SENSORS ==> d[i] < WORD
    witness [0, 0, 0, 0]

  function AsReals(data: seq<nat>): (r: seq<real>)
    ensures |r| == |data|
  {
    seq(|data|, i requires 0 <= i < |data| => data[i] as real)
  }

  function EncoderFences(s: seq<real>): Fences
    requires |s| >= 2
  {
    FencesFrom(WrapSum(s[0], s[1]) / 2.0, WrapSum(s[|s| - 2], s[|s| - 1]) / 2.0)
  }

  /** The counter written over flagged ones: the median, truncated; left `unset` from two outliers on. */
  function EncoderMedian(s: seq<real>, outliers: nat, unset: nat): int
    requires |s| == NUM_SENSORS - outliers
  {
    if outliers == 0 then (WrapSum(s[1], s[2]) / 2.0).Floor else if outliers == 1 then s[1].Floor else unset
  }

  /** `m` is the mean of the reliable counters but one smallest and one largest, rounded down; the sum
      of two counters wraps. */
  ghost predicate TrimmedCount(m: int, reliable: seq<bool>, data: seq<nat>)
    requires |reliable| == |data| == NUM_SENSORS
  {
    forall lo: nat, hi: nat :: Smallest(reliable, AsReals(data), lo) && Largest(reliable, AsReals(data), hi) ==>
      var inner := CountTotal(reliable, data) - data[lo] - data[hi];
      m == if Count(reliable) == 4 then inner % 0x1_0000_0000 / 2 else inner
  }

  /** Sum of the reliable counters. */
  function CountTotal(reliable: seq<bool>, data: seq<nat>): nat
    requires |reliable| == |data| == NUM_SENSORS
  {
    (if reliable[0] then data[0] else 0) + (if reliable[1] then data[1] else 0)
    + (if reliable[2] then data[2] else 0) + (if reliable[3] then data[3] else 0)
  }

  lemma CountTotalIsTotal(reliable: seq<bool>, data: Counters)
    requires |reliable| == NUM_SENSORS
    ensures Total(reliable, AsReals(data)) == CountTotal(reliable, data) as real
  {
  }

  lemma EncoderMedianIs(det: Detector, data: Counters, unset: nat, lo: nat, hi: nat)
    requires det.Valid() && det.outliers <= 1
    requires Smallest(det.reliable, AsReals(data), lo) && Largest(det.reliable, AsReals(data), hi)
    ensures var inner := CountTotal(det.reliable, data) - data[lo] - data[hi];
      EncoderMedian(ReliableSorted(det, AsReals(data)), det.outliers, unset)
      == if det.outliers == 0 then inner % 0x1_0000_0000 / 2 else inner
  {
    InnerSum(det, AsReals(data), lo, hi);
    CountTotalIsTotal(det.reliable, data);
    CounterIsReal(data, lo);
    CounterIsReal(data, hi);
    SortedWithin(det, AsReals(data), 0.0, WORD as real);
    hide ReliableSorted, Total, CountTotal, AsReals, Smallest, Largest, EncoderMedian, Sorted;
    MedianOfInner(ReliableSorted(det, AsReals(data)), det.outliers, unset,
                  CountTotal(det.reliable, data) - data[lo] - data[hi]);
  }

  lemma MedianOfInner(s: seq<real>, outliers: nat, unset: nat, inner: int)
    requires |s| == NUM_SENSORS - outliers && outliers <= 1
    requires forall x :: x in s ==> 0.0 <= x < WORD as real
    requires if outliers == 0 then s[1] + s[2] == inner as real else s[1] == inner as real
    ensures EncoderMedian(s, outliers, unset) == if outliers == 0 then inner % 0x1_0000_0000 / 2 else inner
  {
    hide WrapSum;
    if outliers == 0 {
      assert s[1] in s && s[2] in s;
      HalfOfWrapped(s[1], s[2], inner);
    }
  }

  lemma EncoderMedianIsTrimmed(det: Detector, data: Counters, unset: nat)
    requires det.Valid() && det.outliers <= 1
    ensures TrimmedCount(EncoderMedian(ReliableSorted(det, AsReals(data)), det.outliers, unset), det.reliable, data)
  {
    SortedTotal(det, AsReals(data));
    hide ReliableSorted, Total, CountTotal, AsReals, Smallest, Largest, EncoderMedian, Count;
    forall lo: nat, hi: nat | Smallest(det.reliable, AsReals(data), lo) && Largest(det.reliable, AsReals(data), hi)
      ensures var inner := CountTotal(det.reliable, data) - data[lo] - data[hi];
        EncoderMedian(ReliableSorted(det, AsReals(data)), det.outliers, unset)
        == if Count(det.reliable) == 4 then inner % 0x1_0000_0000 / 2 else inner
    {
      EncoderMedianIs(det, data, unset, lo, hi);
    }
  }

  lemma CounterIsReal(data: Counters, i: nat)
    requires i < NUM_SENSORS
    ensures AsReals(data)[i] == data[i] as real
  {
  }

  lemma HalfOfWrapped(a: real, b: real, inner: int)
    requires 0.0 <= a < WORD as real && 0.0 <= b < WORD as real && a + b == inner as real
    ensures (WrapSum(a, b) / 2.0).Floor == inner % WORD / 2
  {
    var w := if inner >= WORD then inner - WORD else inner;
    assert WrapSum(a, b) == w as real && w == inner % WORD;
    HalfOf(w);
  }

  lemma HalfOf(w: nat)
    ensures (w as real / 2.0).Floor == w / 2
  {
    var h := w / 2;
    assert w == 2 * h || w == 2 * h + 1;
    assert h as real <= w as real / 2.0 < (h + 1) as real;
  }

  /** Bounds on all readings are bounds on the sorted reliable ones. */
  lemma SortedWithin(det: Detector, data: Readings, lo: real, hi: real)
    requires det.Valid() && forall i :: 0 <= i < NUM_SENSORS ==> lo <= data[i] < hi
    ensures forall x :: x in ReliableSorted(det, data) ==> lo <= x < hi
  {
    SortMembers(Gather(det.reliable, data, NUM_SENSORS));
    GatherMembers(det.reliable, data, NUM_SENSORS);
  }

  /** One call of the encoder detector. */
  function EncoderStep(det: Detector, data: Counters): (r: Detector)
    requires det.Valid() && det.outliers <= 2
    ensures r.Valid() && (det.critical ==> r.critical)
  {
    Step(det, AsReals(data), EncoderFences(ReliableSorted(det, AsReals(data))))
  }

  // ------------------------------------------------------------------- bank

  class SensorBank {
    const reliable: array<bool>
    const counter: array<nat>
    var outliers: nat
    var critical: bool  // whether this bank has set the module's status to critical failure

    ghost predicate Valid()
      reads this, reliable, counter
    {
      Value().Valid()
    }

    ghost function Value(): (r: Detector)
      reads this, reliable, counter
      ensures r.outliers == outliers && r.critical == critical
    {
      Detector(reliable[..], counter[..], outliers, critical)
    }

    constructor ()
      ensures Valid() && Value() == FRESH && fresh(reliable) && fresh(counter)
    {
      reliable := new bool[NUM_SENSORS](_ => true);
      counter := new nat[NUM_SENSORS](_ => 0);
      outliers, critical := 0, false;
      new;
      UnreliableOfFour(FRESH.reliable);
      assert reliable[..] == FRESH.reliable && counter[..] == FRESH.counter;
    }

    /** The readings of the reliable sensors, sorted. */
    method SortReliable(data: seq<real>) returns (sorted: seq<real>)
      requires Valid() && |data| == NUM_SENSORS
      ensures sorted == ReliableSorted(Value(), data)
    {
      var vector: seq<real> := [];
      for i := 0 to NUM_SENSORS
        invariant vector == Gather(reliable[..], data, i)
      {
        if reliable[i] {
          vector := vector + [data[i]];
        }
      }
      sorted := Sort(vector);
    }

    /** The middle quartile; left `unset` from two outliers on. */
    method MiddleQuartile(sorted: seq<real>, unset: real) returns (q2: real)
      requires Valid() && |sorted| == NUM_SENSORS - outliers >= 2
      ensures q2 == if outliers <= 1 then Median(sorted, outliers) else unset
    {
      q2 := unset;
      if outliers == 0 {
        q2 := (sorted[1] + sorted[2]) / 2.0;
      } else if outliers == 1 {
        q2 := sorted[1];
      }
    }

    method CalculateImuQuartiles(data: array<real>, unset: real) returns (q1: real, q2: real, q3: real)
      requires Valid() && data.Length == NUM_SENSORS && outliers <= 2
      ensures var s := ReliableSorted(Value(), data[..]);
        && q1 == LowQuartile(s) && q3 == HighQuartile(s)
        && q2 == if outliers <= 1 then Median(s, outliers) else unset
      ensures outliers <= 1 ==> TrimmedMean(q2, reliable[..], data[..])
    {
      if outliers <= 1 {
        MedianIsTrimmedMean(Value(), data[..]);
      }
      hide TrimmedMean;
      var vector := SortReliable(data[..]);
      q1 := (vector[0] + vector[1]) / 2.0;
      q3 := (vector[|vector| - 2] + vector[|vector| - 1]) / 2.0;
      q2 := MiddleQuartile(vector, unset);
    }

    method CalculateEncoderQuartiles(data: array<nat>, unset: real) returns (q1: real, q2: real, q3: real)
      requires Valid() && data.Length == NUM_SENSORS && outliers <= 2 && unset >= 0.0
      requires forall k :: 0 <= k < NUM_SENSORS ==> data[k] < WORD
      ensures q2 >= 0.0
      ensures var s := ReliableSorted(Value(), AsReals(data[..]));
        && q1 == WrapSum(s[0], s[1]) / 2.0 && q3 == WrapSum(s[|s| - 2], s[|s| - 1]) / 2.0
        && (outliers >= 2 ==> q2 == unset)
        && (outliers == 1 ==> q2 == s[1])
        && (outliers == 0 ==> q2 == WrapSum(s[1], s[2]) / 2.0)
    {
      var vector := SortReliable(AsReals(data[..]));
      SortedWithin(Value(), AsReals(data[..]), 0.0, WORD as real);
      assert forall k :: 0 <= k < |vector| ==> vector[k] in vector;
      q1 := WrapSum(vector[0], vector[1]) / 2.0;
      q3 := WrapSum(vector[|vector| - 2], vector[|vector| - 1]) / 2.0;
      q2 := unset;
      if outliers == 0 {
        q2 := WrapSum(vector[1], vector[2]) / 2.0;
      } else if outliers == 1 {
        q2 := vector[1];
      }
    }

    /** The bookkeeping of one pass through the detection loop. */
    method Record(i: nat, exceedsLimits: bool) returns (flagged: bool)
      requires Valid() && i < NUM_SENSORS
      modifies reliable, counter, this
      ensures Valid() && flagged == (exceedsLimits && old(reliable[i]))
      ensures Value() == RecordOne(old(Value()), i, flagged)
    {
      flagged := exceedsLimits && reliable[i];
      if flagged {
        counter[i] := counter[i] + 1;
        if counter[i] > MAX_STREAK && reliable[i] {
          reliable[i] := false;
          outliers := outliers + 1;
        }
        if outliers > 1 {
          critical := true;
        }
        assert counter[..] == old(counter[..])[i := old(counter[i]) + 1];
        assert reliable[..] == if counter[i] > MAX_STREAK then old(reliable[..])[i := false] else old(reliable[..]);
      } else {
        counter[i] := 0;
        assert counter[..] == old(counter[..])[i := 0];
      }
      assert Value() == RecordOne(old(Value()), i, flagged);
    }

    /** The detection loop over IMU readings. */
    method ReplaceOutliers(data: array<real>, lowerLimit: real, upperLimit: real, q2: real)
      requires Valid() && data.Length == NUM_SENSORS
      modifies data, reliable, counter, this
      ensures Valid()
      ensures var f := Fences(lowerLimit, upperLimit);
        && Value() == Step(old(Value()), old(data[..]), f)
        && data[..] == Replaced(old(Value()), old(data[..]), f, q2)
    {
      hide RecordOne;
      ghost var det, was, f := Value(), data[..], Fences(lowerLimit, upperLimit);
      for i := 0 to NUM_SENSORS
        invariant Valid() && Value() == RecordUpTo(det, was, f, i)
        invariant forall k :: 0 <= k < NUM_SENSORS ==>
          data[k] == if k < i && Flagged(det, was, f, k) then q2 else was[k]
      {
        RecordedSoFar(det, was, f, i);
        var flagged := Record(i, data[i] < lowerLimit || data[i] > upperLimit);
        if flagged {
          data[i] := q2;
        }
      }
      RecordAll(det, was, f);
    }

    method ImuOutlierDetection(data: array<real>, unset: real)
      requires Valid() && data.Length == NUM_SENSORS && outliers <= 2
      modifies data, reliable, counter, this
      ensures Valid()
      ensures var s := ReliableSorted(old(Value()), old(data[..]));
        && Value() == Step(old(Value()), old(data[..]), FencesOf(s))
        && data[..] == Replaced(old(Value()), old(data[..]), FencesOf(s),
                                if old(outliers) <= 1 then Median(s, old(outliers)) else unset)
      ensures old(outliers) <= 1 ==> forall i :: 0 <= i < NUM_SENSORS ==>
        if old(reliable[i]) && FarFromAll(old(Value()), old(data[..]), i)
        then TrimmedMean(data[i], old(reliable[..]), old(data[..])) else data[i] == old(data[i])
      ensures old(outliers) == 2 ==> forall i, j ::
        0 <= i < NUM_SENSORS && 0 <= j < NUM_SENSORS && i != j && old(reliable[i]) && old(reliable[j]) ==>
          data[i] == if old(data[i]) != old(data[j]) then unset else old(data[i])
    {
      ghost var det, was := Value(), data[..];
      hide Step, Replaced, ReliableSorted, Median;
      var q1, q2, q3 := CalculateImuQuartiles(data, unset);
      var iqr := Min(q3 - q1, MAX_INTER_QUARTILE_RANGE);
      var upperLimit := q3 + INTER_QUARTILE_SCALER * iqr;
      var lowerLimit := q1 - INTER_QUARTILE_SCALER * iqr;
      assert Fences(lowerLimit, upperLimit) == FencesOf(ReliableSorted(det, was));
      ReplaceOutliers(data, lowerLimit, upperLimit, q2);
      hide FarFromAll, TrimmedMean, FencesOf;
      forall i | 0 <= i < NUM_SENSORS && det.outliers <= 1
        ensures if det.reliable[i] && FarFromAll(det, was, i)
                then TrimmedMean(data[..][i], det.reliable, was) else data[..][i] == was[i]
      {
        ReplacedByMean(det, was, i);
      }
      forall i, j | 0 <= i < NUM_SENSORS && 0 <= j < NUM_SENSORS && i != j && det.outliers == 2
                    && det.reliable[i] && det.reliable[j]
        ensures data[..][i] == if was[i] != was[j] then unset else was[i]
      {
        ReplacedOfTwo(det, was, unset, i, j);
      }
    }

    /** The detection loop over encoder readings; the median is truncated to a counter. */
    method ReplaceEncoderOutliers(data: array<nat>, lowerLimit: real, upperLimit: real, q2: real)
      requires Valid() && data.Length == NUM_SENSORS && data != counter && q2 >= 0.0
      modifies data, reliable, counter, this
      ensures Valid()
      ensures var was, f := AsReals(old(data[..])), Fences(lowerLimit, upperLimit);
        && Value() == Step(old(Value()), was, f)
        && forall k :: 0 <= k < NUM_SENSORS ==>
             data[k] == if Flagged(old(Value()), was, f, k) then q2.Floor else old(data[k])
    {
      hide RecordOne;
      ghost var det, was, f := Value(), AsReals(data[..]), Fences(lowerLimit, upperLimit);
      for i := 0 to NUM_SENSORS
        invariant Valid() && Value() == RecordUpTo(det, was, f, i)
        invariant forall k :: 0 <= k < NUM_SENSORS ==>
          data[k] == if k < i && Flagged(det, was, f, k) then q2.Floor else old(data[k])
      {
        RecordedSoFar(det, was, f, i);
        assert was[i] == data[i] as real;
        assert Exceeds(was[i], f) <==> data[i] as real < lowerLimit || data[i] as real > upperLimit;
        var flagged := Record(i, data[i] as real < lowerLimit || data[i] as real > upperLimit);
        if flagged {
          data[i] := q2.Floor;
        }
      }
      RecordAll(det, was, f);
    }

    method WheelEncoderOutlierDetection(data: array<nat>, unset: nat)
      requires Valid() && data.Length == NUM_SENSORS && data != counter && outliers <= 2
      requires forall k :: 0 <= k < NUM_SENSORS ==> data[k] < WORD
      modifies data, reliable, counter, this
      ensures Valid()
      ensures var was := AsReals(old(data[..]));
        var s := ReliableSorted(old(Value()), was);
        && Value() == Step(old(Value()), was, EncoderFences(s))
        && (forall k :: 0 <= k < NUM_SENSORS ==>
             data[k] == if Flagged(old(Value()), was, EncoderFences(s), k)
                        then EncoderMedian(s, old(outliers), unset) else old(data[k]))
        && (old(outliers) <= 1 ==> forall k :: 0 <= k < NUM_SENSORS ==>
             if Flagged(old(Value()), was, EncoderFences(s), k)
             then TrimmedCount(data[k], old(reliable[..]), old(data[..])) else data[k] == old(data[k]))
    {
      hide Step, ReliableSorted, TrimmedCount, Flagged;
      if outliers <= 1 {
        EncoderMedianIsTrimmed(Value(), data[..], unset);
      }
      var q1, q2, q3 := CalculateEncoderQuartiles(data, unset as real);
      var iqr := Min(q3 - q1, MAX_INTER_QUARTILE_RANGE);
      var upperLimit := q3 + INTER_QUARTILE_SCALER * iqr;
      var lowerLimit := q1 - INTER_QUARTILE_SCALER * iqr;
      ReplaceEncoderOutliers(data, lowerLimit, upperLimit, q2);
    }
  }
}
