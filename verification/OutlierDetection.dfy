/** Outlier rejection among four redundant sensors, IMUs or wheel encoders.

    One call compares each reliable reading with two fences computed from the
    quartiles of the reliable readings, counts consecutive violations, and drops
    a sensor on its 1001st. `Step` is what a call does to the bookkeeping; the
    methods of the navigation module are proved to do it. */
module OutlierDetection {
  import opened Arithmetic

  const NUM_SENSORS := 4
  const MAX_STREAK := 1000
  const INTER_QUARTILE_SCALER := 1.0
  const MAX_INTER_QUARTILE_RANGE := 3.0

  /** One reading per sensor. */
  type Readings = r: seq<real> | |r| == NUM_SENSORS witness [0.0, 0.0, 0.0, 0.0]

  datatype Fences = Fences(lower: real, upper: real)

  datatype Detector = Detector(reliable: seq<bool>, counter: seq<nat>, outliers: nat, critical: bool) {
    ghost predicate Valid() {
      && |reliable| == |counter| == NUM_SENSORS
      && outliers == Unreliable(reliable, NUM_SENSORS)
    }
  }

  const FRESH := Detector([true, true, true, true], [0, 0, 0, 0], 0, false)

  /** How many of the first `n` sensors are unreliable. */
  function Unreliable(reliable: seq<bool>, n: nat): (u: nat)
    requires n <= |reliable|
    ensures u <= n
  {
    if n == 0 then 0 else Unreliable(reliable, n - 1) + if reliable[n - 1] then 0 else 1
  }

  /** Readings of the reliable ones among the first `n` sensors. */
  function Gather(reliable: seq<bool>, data: seq<real>, n: nat): (r: seq<real>)
    requires n <= |reliable| == |data|
    ensures |r| == n - Unreliable(reliable, n)
  {
    if n == 0 then []
    else Gather(reliable, data, n - 1) + if reliable[n - 1] then [data[n - 1]] else []
  }

  // ---------------------------------------------------------------- sorting

  ghost predicate Sorted(s: seq<real>) {
    forall i, j :: 0 <= i < j < |s| ==> s[i] <= s[j]
  }

  function Insert(s: seq<real>, x: real): (r: seq<real>)
    ensures multiset(r) == multiset(s) + multiset{x} && |r| == |s| + 1
  {
    if s == [] then [x]
    else if x <= s[0] then [x] + s
    else
      assert s == [s[0]] + s[1..];
      [s[0]] + Insert(s[1..], x)
  }

  lemma {:induction false} InsertAbove(s: seq<real>, x: real, low: real)
    requires low <= x && forall j :: 0 <= j < |s| ==> low <= s[j]
    ensures forall j :: 0 <= j < |Insert(s, x)| ==> low <= Insert(s, x)[j]
  {
    if s != [] && x > s[0] {
      InsertAbove(s[1..], x, low);
    }
  }

  lemma {:induction false} InsertSorted(s: seq<real>, x: real)
    requires Sorted(s)
    ensures Sorted(Insert(s, x))
  {
    if s != [] && x > s[0] {
      InsertSorted(s[1..], x);
      InsertAbove(s[1..], x, s[0]);
    }
  }

  /** std::sort. */
  function Sort(s: seq<real>): (r: seq<real>)
    ensures Sorted(r) && multiset(r) == multiset(s) && |r| == |s|
  {
    if s == [] then []
    else
      assert s == s[..|s| - 1] + [s[|s| - 1]];
      InsertSorted(Sort(s[..|s| - 1]), s[|s| - 1]);
      Insert(Sort(s[..|s| - 1]), s[|s| - 1])
  }

  lemma SortMembers(s: seq<real>)
    ensures forall x :: x in Sort(s) <==> x in s
  {
    forall x ensures x in Sort(s) <==> x in s {
      assert x in Sort(s) <==> x in multiset(Sort(s));
      assert x in s <==> x in multiset(s);
    }
  }

  lemma InMultiset(s: seq<real>, x: real)
    ensures x in multiset(s) <==> x in s
  {
  }

  lemma WithoutLast(s: seq<real>)
    requires s != []
    ensures multiset(s) == multiset(s[..|s| - 1]) + multiset{s[|s| - 1]}
  {
    assert s == s[..|s| - 1] + [s[|s| - 1]];
  }

  lemma LastIsLargest(s: seq<real>, x: real)
    requires Sorted(s) && x in multiset(s)
    ensures s != [] && x <= s[|s| - 1]
  {
    InMultiset(s, x);
  }

  lemma SameLast(s: seq<real>, t: seq<real>)
    requires Sorted(s) && Sorted(t) && multiset(s) == multiset(t) && s != [] && t != []
    ensures s[|s| - 1] == t[|t| - 1]
  {
    hide Sorted;
    InMultiset(s, s[|s| - 1]);
    InMultiset(t, t[|t| - 1]);
    LastIsLargest(t, s[|s| - 1]);
    LastIsLargest(s, t[|t| - 1]);
  }

  lemma TakeAway(a: multiset<real>, b: multiset<real>, x: real)
    requires a + multiset{x} == b + multiset{x}
    ensures a == b
  {
    assert a == a + multiset{x} - multiset{x} && b == b + multiset{x} - multiset{x};
  }

  /** Sorting has one result. */
  lemma {:induction false} SortedUnique(s: seq<real>, t: seq<real>)
    requires Sorted(s) && Sorted(t) && multiset(s) == multiset(t)
    ensures s == t
  {
    assert |s| == |multiset(s)| == |multiset(t)| == |t|;
    if s != [] {
      SameLast(s, t);
      WithoutLast(s);
      WithoutLast(t);
      TakeAway(multiset(s[..|s| - 1]), multiset(t[..|t| - 1]), s[|s| - 1]);
      SortedUnique(s[..|s| - 1], t[..|t| - 1]);
      assert s == s[..|s| - 1] + [s[|s| - 1]] && t == t[..|t| - 1] + [t[|t| - 1]];
    }
  }

  /** A sorted sequence ends in its largest element, after the others sorted. */
  lemma LargestLast(s: seq<real>, others: seq<real>, x: real)
    requires Sorted(s) && multiset(s) == multiset(others) + multiset{x}
    requires forall y :: y in others ==> y <= x
    ensures s == Sort(others) + [x]
  {
    var t := Sort(others) + [x];
    SortMembers(others);
    assert forall j :: 0 <= j < |Sort(others)| ==> Sort(others)[j] in Sort(others);
    assert Sorted(t);
    SortedUnique(s, t);
  }

  // ----------------------------------------------------------------- fences

  function LowQuartile(s: seq<real>): real
    requires |s| >= 2
  {
    (s[0] + s[1]) / 2.0
  }

  function HighQuartile(s: seq<real>): real
    requires |s| >= 2
  {
    (s[|s| - 2] + s[|s| - 1]) / 2.0
  }

  /** The median written over flagged readings; the program leaves it unset from two outliers on. */
  function Median(s: seq<real>, outliers: nat): real
    requires |s| == NUM_SENSORS - outliers && outliers <= 1
  {
    if outliers == 0 then (s[1] + s[2]) / 2.0 else s[1]
  }

  function FencesFrom(q1: real, q3: real): Fences {
    var iqr := Min(q3 - q1, MAX_INTER_QUARTILE_RANGE);
    Fences(q1 - INTER_QUARTILE_SCALER * iqr, q3 + INTER_QUARTILE_SCALER * iqr)
  }

  function FencesOf(s: seq<real>): Fences
    requires |s| >= 2
  {
    FencesFrom(LowQuartile(s), HighQuartile(s))
  }

  function ReliableSorted(det: Detector, data: seq<real>): (s: seq<real>)
    requires det.Valid() && |data| == NUM_SENSORS
    ensures Sorted(s) && |s| == NUM_SENSORS - det.outliers
  {
    Sort(Gather(det.reliable, data, NUM_SENSORS))
  }

  // --------------------------------------------------------------- one call

  predicate Exceeds(x: real, f: Fences) {
    x < f.lower || x > f.upper
  }

  predicate Flagged(det: Detector, data: seq<real>, f: Fences, i: nat)
    requires |det.reliable| == |data| == NUM_SENSORS && i < NUM_SENSORS
  {
    det.reliable[i] && Exceeds(data[i], f)
  }

  /** Bookkeeping after one call with the given readings and fences. */
  function Step(det: Detector, data: seq<real>, f: Fences): (r: Detector)
    requires det.Valid() && |data| == NUM_SENSORS
    ensures r.Valid() && (det.critical ==> r.critical)
  {
    var reliable := seq(NUM_SENSORS, i requires 0 <= i < NUM_SENSORS =>
      det.reliable[i] && !(Flagged(det, data, f, i) && det.counter[i] >= MAX_STREAK));
    var counter := seq(NUM_SENSORS, i requires 0 <= i < NUM_SENSORS =>
      if Flagged(det, data, f, i) then det.counter[i] + 1 else 0);
    var outliers := Unreliable(reliable, NUM_SENSORS);
    Detector(reliable, counter, outliers,
             det.critical || (outliers > 1 && exists i :: 0 <= i < NUM_SENSORS && Flagged(det, data, f, i)))
  }

  /** Readings after one call: flagged ones become the median. */
  function Replaced(det: Detector, data: seq<real>, f: Fences, median: real): (r: seq<real>)
    requires |det.reliable| == |data| == NUM_SENSORS
    ensures |r| == NUM_SENSORS
  {
    seq(NUM_SENSORS, i requires 0 <= i < NUM_SENSORS => if Flagged(det, data, f, i) then median else data[i])
  }

  // ------------------------------------------------ what the fences detect

  lemma GatherOne(reliable: seq<bool>, data: seq<real>, n: nat)
    requires 0 < n <= |reliable| == |data|
    ensures multiset(Gather(reliable, data, n)) == multiset(Gather(reliable, data, n - 1))
      + if reliable[n - 1] then multiset{data[n - 1]} else multiset{}
  {
  }

  /** Leaving sensor `i` out of the reliable readings takes exactly its reading out. */
  lemma {:induction false} GatherWithout(reliable: seq<bool>, data: seq<real>, n: nat, i: nat)
    requires i < n <= |reliable| == |data| && reliable[i]
    ensures multiset(Gather(reliable, data, n))
         == multiset(Gather(reliable[i := false], data, n)) + multiset{data[i]}
  {
    hide Gather;
    GatherOne(reliable, data, n);
    GatherOne(reliable[i := false], data, n);
    if i < n - 1 {
      GatherWithout(reliable, data, n - 1, i);
    } else {
      GatherDependsOnPrefix(reliable, reliable[i := false], data, n - 1);
    }
  }

  lemma {:induction false} GatherDependsOnPrefix(r1: seq<bool>, r2: seq<bool>, data: seq<real>, n: nat)
    requires n <= |r1| == |r2| == |data| && r1[..n] == r2[..n]
    ensures Gather(r1, data, n) == Gather(r2, data, n)
  {
    if n > 0 {
      assert r1[n - 1] == r1[..n][n - 1] == r2[..n][n - 1] == r2[n - 1];
      assert r1[..n - 1] == r1[..n][..n - 1] == r2[..n][..n - 1] == r2[..n - 1];
      GatherDependsOnPrefix(r1, r2, data, n - 1);
    }
  }

  lemma {:induction false} GatherMembers(reliable: seq<bool>, data: seq<real>, n: nat)
    requires n <= |reliable| == |data|
    ensures forall j :: 0 <= j < n && reliable[j] ==> data[j] in Gather(reliable, data, n)
    ensures forall x :: x in Gather(reliable, data, n) ==> exists j :: 0 <= j < n && reliable[j] && data[j] == x
  {
    if n > 0 {
      GatherMembers(reliable, data, n - 1);
    }
  }

  /** `x` exceeds the second largest of `s` by more than `gap` iff it exceeds all others by that. */
  lemma AboveSecond(s: seq<real>, others: seq<real>, x: real, gap: real)
    requires Sorted(s) && |s| >= 2 && gap > 0.0
    requires multiset(s) == multiset(others) + multiset{x}
    ensures x - s[|s| - 2] > gap <==> forall y :: y in others ==> x - y > gap
  {
    var n := |s|;
    assert s == s[..n - 2] + [s[n - 2], s[n - 1]];
    assert s[n - 2] in multiset(s) && s[n - 1] in multiset(s) && x in multiset(s);
    if x - s[n - 2] > gap {
      assert multiset(s[..n - 2])[x] == 0;
      assert multiset(others)[x] == 0;
      forall y | y in others ensures x - y > gap {
        assert y in multiset(others);
        assert y in multiset(s);
      }
    }
    if forall y :: y in others ==> x - y > gap {
      assert x !in others;
      assert multiset(s)[x] == 1;
      assert forall y :: y in multiset(s) && y != x ==> y in others;
    }
  }

  lemma BelowSecond(s: seq<real>, others: seq<real>, x: real, gap: real)
    requires Sorted(s) && |s| >= 2 && gap > 0.0
    requires multiset(s) == multiset(others) + multiset{x}
    ensures s[1] - x > gap <==> forall y :: y in others ==> y - x > gap
  {
    assert s == [s[0], s[1]] + s[2..];
    assert s[0] in multiset(s) && s[1] in multiset(s) && x in multiset(s);
    if s[1] - x > gap {
      assert multiset(s[2..])[x] == 0;
      assert multiset(others)[x] == 0;
      forall y | y in others ensures y - x > gap {
        assert y in multiset(others);
        assert y in multiset(s);
      }
    }
    if forall y :: y in others ==> y - x > gap {
      assert x !in others;
      assert multiset(s)[x] == 1;
      assert forall y :: y in multiset(s) && y != x ==> y in others;
    }
  }

  /** With three or four readings the clipped range is what decides: the gap is twice the clip. */
  lemma FenceGap(s: seq<real>, x: real)
    requires Sorted(s) && 3 <= |s| <= NUM_SENSORS && x in s
    ensures x > FencesOf(s).upper <==> x - s[|s| - 2] > 6.0
    ensures x < FencesOf(s).lower <==> s[1] - x > 6.0
  {
    var k :| 0 <= k < |s| && s[k] == x;
  }

  /** The readings of the other reliable sensors. */
  lemma Others(det: Detector, data: seq<real>, i: nat) returns (others: seq<real>)
    requires det.Valid() && |data| == NUM_SENSORS && i < NUM_SENSORS && det.reliable[i]
    ensures multiset(ReliableSorted(det, data)) == multiset(others) + multiset{data[i]}
    ensures |others| == NUM_SENSORS - det.outliers - 1
    ensures forall j :: 0 <= j < NUM_SENSORS && j != i && det.reliable[j] ==> data[j] in others
    ensures forall y :: y in others ==> exists j :: 0 <= j < NUM_SENSORS && j != i && det.reliable[j] && data[j] == y
  {
    var without := det.reliable[i := false];
    others := Gather(without, data, NUM_SENSORS);
    GatherWithout(det.reliable, data, NUM_SENSORS, i);
    GatherMembers(without, data, NUM_SENSORS);
    assert |multiset(ReliableSorted(det, data))| == |multiset(others)| + 1;
    assert forall j :: 0 <= j < NUM_SENSORS ==> (without[j] <==> j != i && det.reliable[j]);
  }

  ghost predicate FarFromAll(det: Detector, data: seq<real>, i: nat)
    requires |det.reliable| == |data| == NUM_SENSORS && i < NUM_SENSORS
  {
    || (forall j :: 0 <= j < NUM_SENSORS && j != i && det.reliable[j] ==> data[i] - data[j] > 6.0)
    || (forall j :: 0 <= j < NUM_SENSORS && j != i && det.reliable[j] ==> data[j] - data[i] > 6.0)
  }

  /** With three or four reliable sensors, a reading is flagged exactly when it lies
      more than 6 above every other reliable reading, or more than 6 below every one. */
  lemma FlaggedExactly(det: Detector, data: seq<real>, i: nat)
    requires det.Valid() && |data| == NUM_SENSORS && i < NUM_SENSORS
    requires det.outliers <= 1 && det.reliable[i]
    ensures Flagged(det, data, FencesOf(ReliableSorted(det, data)), i) <==> FarFromAll(det, data, i)
  {
    var s := ReliableSorted(det, data);
    var others := Others(det, data, i);
    assert data[i] in multiset(s);
    FenceGap(s, data[i]);
    AboveSecond(s, others, data[i], 6.0);
    BelowSecond(s, others, data[i], 6.0);
  }

  /** With two reliable sensors left the fences coincide: both are flagged as soon as they differ. */
  lemma FlaggedWithTwo(det: Detector, data: seq<real>, i: nat, j: nat)
    requires det.Valid() && |data| == NUM_SENSORS && i < NUM_SENSORS && j < NUM_SENSORS && i != j
    requires det.outliers == 2 && det.reliable[i] && det.reliable[j]
    ensures Flagged(det, data, FencesOf(ReliableSorted(det, data)), i) <==> data[i] != data[j]
  {
    var s := ReliableSorted(det, data);
    var others := Others(det, data, i);
    assert data[j] in others && others == [others[0]];
    hide ReliableSorted, FencesOf;
    TwoFences(s, data[i], data[j]);
  }

  lemma TwoFences(s: seq<real>, x: real, y: real)
    requires |s| == 2 && Sorted(s) && multiset(s) == multiset{x, y}
    ensures Exceeds(x, FencesOf(s)) <==> x != y
  {
    assert s == [s[0], s[1]];
    assert x in multiset(s) && y in multiset(s) && s[0] in multiset(s) && s[1] in multiset(s);
  }

  /** The fences of the IMUs flag at most two readings in a call, never three distinct ones. */
  lemma AtMostTwoFlagged(det: Detector, data: seq<real>, i: nat, j: nat, k: nat)
    requires det.Valid() && det.outliers <= 2 && |data| == NUM_SENSORS
    requires i < NUM_SENSORS && j < NUM_SENSORS && k < NUM_SENSORS && i != j && j != k && k != i
    ensures var f := FencesOf(ReliableSorted(det, data));
      !(Flagged(det, data, f, i) && Flagged(det, data, f, j) && Flagged(det, data, f, k))
  {
    if det.reliable[i] && det.reliable[j] && det.reliable[k] {
      ThreeReliable(det.reliable, i, j, k);
      FlaggedExactly(det, data, i);
      FlaggedExactly(det, data, j);
      FlaggedExactly(det, data, k);
    }
  }

  lemma ThreeReliable(reliable: seq<bool>, i: nat, j: nat, k: nat)
    requires |reliable| == NUM_SENSORS
    requires i < NUM_SENSORS && j < NUM_SENSORS && k < NUM_SENSORS && i != j && j != k && k != i
    requires reliable[i] && reliable[j] && reliable[k]
    ensures Unreliable(reliable, NUM_SENSORS) <= 1
  {
    UnreliableOfFour(reliable);
  }

  lemma UnreliableOfFour(reliable: seq<bool>)
    requires |reliable| == NUM_SENSORS
    ensures Unreliable(reliable, NUM_SENSORS)
         == (if reliable[0] then 0 else 1) + (if reliable[1] then 0 else 1)
            + (if reliable[2] then 0 else 1) + (if reliable[3] then 0 else 1)
  {
    assert Unreliable(reliable, 2) == Unreliable(reliable, 1) + if reliable[1] then 0 else 1;
  }

  lemma AllReliable(det: Detector)
    requires det.Valid() && det.outliers == 0
    ensures forall i :: 0 <= i < NUM_SENSORS ==> det.reliable[i]
  {
    UnreliableOfFour(det.reliable);
  }

  /** If all reliable readings but possibly one lie in [lo, hi], so does the median. */
  lemma MedianWithin(det: Detector, data: seq<real>, faulty: nat, lo: real, hi: real)
    requires det.Valid() && |data| == NUM_SENSORS && faulty < NUM_SENSORS && det.outliers <= 1
    requires forall j :: 0 <= j < NUM_SENSORS && j != faulty && det.reliable[j] ==> lo <= data[j] <= hi
    ensures lo <= Median(ReliableSorted(det, data), det.outliers) <= hi
  {
    if det.reliable[faulty] {
      var s := ReliableSorted(det, data);
      var others := Others(det, data, faulty);
      hide ReliableSorted, Unreliable;
      InnerWithin(s, others, data[faulty], lo, hi);
    } else {
      SortedBetween(det, data, lo, hi);
    }
  }

  /** Bounds on the reliable readings are bounds on them sorted. */
  lemma SortedBetween(det: Detector, data: seq<real>, lo: real, hi: real)
    requires det.Valid() && |data| == NUM_SENSORS
    requires forall j :: 0 <= j < NUM_SENSORS && det.reliable[j] ==> lo <= data[j] <= hi
    ensures var s := ReliableSorted(det, data); forall k :: 0 <= k < |s| ==> lo <= s[k] <= hi
  {
    var s, g := ReliableSorted(det, data), Gather(det.reliable, data, NUM_SENSORS);
    SortMembers(g);
    GatherMembers(det.reliable, data, NUM_SENSORS);
    hide ReliableSorted, Gather, Sort;
    forall k | 0 <= k < |s| ensures lo <= s[k] <= hi {
      assert s[k] in s && s[k] in g;
    }
  }

  /** Of a sorted sequence with at most one element outside [lo, hi], the inner ones are inside. */
  lemma InnerWithin(s: seq<real>, others: seq<real>, x: real, lo: real, hi: real)
    requires Sorted(s) && |s| >= 3 && multiset(s) == multiset(others) + multiset{x}
    requires forall y :: y in others ==> lo <= y <= hi
    ensures forall k :: 1 <= k < |s| - 1 ==> lo <= s[k] <= hi
  {
    assert forall y :: y in multiset(s) && y != x ==> y in others;
    forall k | 1 <= k < |s| - 1 ensures lo <= s[k] <= hi {
      assert s[k - 1] in multiset(s) && s[k] in multiset(s) && s[k + 1] in multiset(s);
      if s[k] == x {
        if s[k - 1] == x {
          TwoOccurrences(s, k - 1, k);
          assert multiset(others)[x] >= 1 && x in others;
        } else if s[k + 1] == x {
          TwoOccurrences(s, k, k + 1);
          assert multiset(others)[x] >= 1 && x in others;
        }
      }
    }
  }

  lemma TwoOccurrences(s: seq<real>, i: nat, j: nat)
    requires i < j < |s| && s[i] == s[j]
    ensures multiset(s)[s[i]] >= 2
  {
    assert s == s[..i] + [s[i]] + s[i + 1..j] + [s[j]] + s[j + 1..];
  }
}
