/** What is written over a flagged reading, told from the readings themselves: with three or
    four reliable sensors, the mean of those left when one smallest and one largest reading
    are taken out. */
module Medians {
  import opened Arithmetic
  import opened Statistics
  import opened OutlierDetection

  /** Sensor `i` is reliable and no reliable one reads less. */
  ghost predicate Smallest(reliable: seq<bool>, data: seq<real>, i: nat)
    requires |reliable| == |data| == NUM_SENSORS
  {
    i < NUM_SENSORS && reliable[i] && forall j :: 0 <= j < NUM_SENSORS && reliable[j] ==> data[i] <= data[j]
  }

  /** Sensor `i` is reliable and no reliable one reads more. */
  ghost predicate Largest(reliable: seq<bool>, data: seq<real>, i: nat)
    requires |reliable| == |data| == NUM_SENSORS
  {
    i < NUM_SENSORS && reliable[i] && forall j :: 0 <= j < NUM_SENSORS && reliable[j] ==> data[j] <= data[i]
  }

  /** Sum of the readings of the reliable sensors. */
  function Total(reliable: seq<bool>, data: seq<real>): real
    requires |reliable| == |data| == NUM_SENSORS
  {
    (if reliable[0] then data[0] else 0.0) + (if reliable[1] then data[1] else 0.0)
    + (if reliable[2] then data[2] else 0.0) + (if reliable[3] then data[3] else 0.0)
  }

  function Count(reliable: seq<bool>): nat
    requires |reliable| == NUM_SENSORS
  {
    (if reliable[0] then 1 else 0) + (if reliable[1] then 1 else 0)
    + (if reliable[2] then 1 else 0) + (if reliable[3] then 1 else 0)
  }

  /** `m` is the mean of the reliable readings but one smallest and one largest. */
  ghost predicate TrimmedMean(m: real, reliable: seq<bool>, data: seq<real>)
    requires |reliable| == |data| == NUM_SENSORS
  {
    forall lo: nat, hi: nat :: Smallest(reliable, data, lo) && Largest(reliable, data, hi) ==>
      Times((Count(reliable) - 2) as real, m) == Total(reliable, data) - data[lo] - data[hi]
  }

  lemma SumOfGathered(reliable: seq<bool>, data: seq<real>, n: nat)
    requires n < |reliable| == |data|
    ensures Sum(Gather(reliable, data, n + 1))
         == Sum(Gather(reliable, data, n)) + if reliable[n] then data[n] else 0.0
  {
    var last := if reliable[n] then [data[n]] else [];
    SumConcat(Gather(reliable, data, n), last);
    assert reliable[n] ==> last[1..] == [];
  }

  lemma TotalIsSum(reliable: seq<bool>, data: seq<real>)
    requires |reliable| == |data| == NUM_SENSORS
    ensures Total(reliable, data) == Sum(Gather(reliable, data, NUM_SENSORS))
  {
    assert Gather(reliable, data, 0) == [];
    SumOfGathered(reliable, data, 0);
    SumOfGathered(reliable, data, 1);
    SumOfGathered(reliable, data, 2);
    hide Gather, Sum;
    SumOfGathered(reliable, data, 3);
  }

  /** In the sorted reliable readings the smallest comes first and the largest last. */
  lemma ExtremesOfSorted(det: Detector, data: seq<real>, lo: nat, hi: nat)
    requires det.Valid() && |data| == NUM_SENSORS && det.outliers < NUM_SENSORS
    requires Smallest(det.reliable, data, lo) && Largest(det.reliable, data, hi)
    ensures var s := ReliableSorted(det, data); s[0] == data[lo] && s[|s| - 1] == data[hi]
  {
    var s, g := ReliableSorted(det, data), Gather(det.reliable, data, NUM_SENSORS);
    GatherMembers(det.reliable, data, NUM_SENSORS);
    SortMembers(g);
    hide Gather, Sort, ReliableSorted;
    assert s[0] in g && s[|s| - 1] in g && data[lo] in s && data[hi] in s;
  }

  /** Sorting moves the readings and keeps their sum. */
  lemma SortedTotal(det: Detector, data: seq<real>)
    requires det.Valid() && |data| == NUM_SENSORS
    ensures Sum(ReliableSorted(det, data)) == Total(det.reliable, data)
    ensures |ReliableSorted(det, data)| == Count(det.reliable) == NUM_SENSORS - det.outliers
  {
    var g := Gather(det.reliable, data, NUM_SENSORS);
    TotalIsSum(det.reliable, data);
    UnreliableOfFour(det.reliable);
    SumsOrderIndependent(Sort(g), g, 0.0);
  }

  lemma SumOfSome(s: seq<real>)
    ensures |s| == 3 ==> Sum(s) == s[0] + s[1] + s[2]
    ensures |s| == 4 ==> Sum(s) == s[0] + s[1] + s[2] + s[3]
  {
    if |s| in {3, 4} {
      assert Sum(s) == s[0] + Sum(s[1..]);
      assert Sum(s[1..]) == s[1] + Sum(s[2..]) by {
        assert s[1..][1..] == s[2..];
      }
      assert Sum(s[2..]) == s[2] + Sum(s[3..]) by {
        assert s[2..][1..] == s[3..];
      }
      assert |s| == 4 ==> Sum(s[3..]) == s[3] + Sum(s[4..]) by {
        assert |s| == 4 ==> s[3..][1..] == s[4..];
      }
    }
  }

  /** The inner readings of three or four sorted ones are what is left without the extremes. */
  lemma InnerSum(det: Detector, data: seq<real>, lo: nat, hi: nat)
    requires det.Valid() && |data| == NUM_SENSORS && det.outliers <= 1
    requires Smallest(det.reliable, data, lo) && Largest(det.reliable, data, hi)
    ensures var s, inner := ReliableSorted(det, data), Total(det.reliable, data) - data[lo] - data[hi];
      if det.outliers == 0 then s[1] + s[2] == inner else s[1] == inner
  {
    ExtremesOfSorted(det, data, lo, hi);
    SortedTotal(det, data);
    SumOfSome(ReliableSorted(det, data));
    hide ReliableSorted, Total, Smallest, Largest, Sum;
  }

  lemma MedianIsTrimmedMean(det: Detector, data: seq<real>)
    requires det.Valid() && |data| == NUM_SENSORS && det.outliers <= 1
    ensures TrimmedMean(Median(ReliableSorted(det, data), det.outliers), det.reliable, data)
  {
    SortedTotal(det, data);
    hide ReliableSorted, Total, Smallest, Largest, Count, Sum, Times;
    forall lo: nat, hi: nat | Smallest(det.reliable, data, lo) && Largest(det.reliable, data, hi)
      ensures Times((Count(det.reliable) - 2) as real, Median(ReliableSorted(det, data), det.outliers))
           == Total(det.reliable, data) - data[lo] - data[hi]
    {
      InnerSum(det, data, lo, hi);
      InnerMean(Median(ReliableSorted(det, data), det.outliers), det.outliers,
                Total(det.reliable, data) - data[lo] - data[hi]);
    }
  }

  lemma InnerMean(m: real, outliers: nat, inner: real)
    requires if outliers == 0 then m == inner / 2.0 else outliers == 1 && m == inner
    ensures Times((NUM_SENSORS - outliers - 2) as real, m) == inner
  {
  }
}
