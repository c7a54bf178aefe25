/** What the wrap-around of the quartile sums does to the wheel encoders: exactly
    when one faulty encoder leaves the others alone, and a run in which it takes
    all four out. */
module EncoderFaults {
  import opened Arithmetic
  import opened OutlierDetection
  import opened SensorBanks
  import opened Fusion

  const HALF_WORD := 0x8000_0000

  /** No two counters wrap when added. */
  ghost predicate NoWrap(data: Counters) {
    forall i, j :: 0 <= i < NUM_SENSORS && 0 <= j < NUM_SENSORS && i != j ==> data[i] + data[j] < WORD
  }

  lemma LargestOf(det: Detector, data: seq<real>) returns (i: nat)
    requires det.Valid() && |data| == NUM_SENSORS && det.outliers <= 2
    ensures i < NUM_SENSORS && det.reliable[i]
    ensures forall j :: 0 <= j < NUM_SENSORS && det.reliable[j] ==> data[j] <= data[i]
  {
    UnreliableOfFour(det.reliable);
    i := if det.reliable[0] then 0 else if det.reliable[1] then 1 else 2;
    var k := i;
    while k < NUM_SENSORS
      invariant k <= NUM_SENSORS && i < NUM_SENSORS && det.reliable[i]
      invariant forall j :: 0 <= j < k && det.reliable[j] ==> data[j] <= data[i]
    {
      if det.reliable[k] && data[k] > data[i] {
        i := k;
      }
      k := k + 1;
    }
  }

  /** The two largest reliable counters belong to two encoders. */
  lemma TwoLargest(det: Detector, data: seq<real>) returns (i: nat, j: nat)
    requires det.Valid() && |data| == NUM_SENSORS && det.outliers <= 2
    ensures i < NUM_SENSORS && j < NUM_SENSORS && i != j
    ensures var s := ReliableSorted(det, data); data[i] == s[|s| - 1] && data[j] == s[|s| - 2]
  {
    i := LargestOf(det, data);
    var others := Others(det, data, i);
    assert forall y :: y in others ==> y <= data[i];
    LargestLast(ReliableSorted(det, data), others, data[i]);
    var t := Sort(others);
    SortMembers(others);
    assert t[|t| - 1] in t && t[|t| - 1] in others;
    j :| 0 <= j < NUM_SENSORS && j != i && det.reliable[j] && data[j] == t[|t| - 1];
  }

  /** Without wrap-around the encoders are judged like the IMUs. */
  lemma JudgedAlike(det: Detector, data: Counters)
    requires det.Valid() && det.outliers <= 2 && NoWrap(data)
    ensures EncoderFences(ReliableSorted(det, AsReals(data))) == FencesFor(det, AsReals(data))
  {
    var s := ReliableSorted(det, AsReals(data));
    var i, j := TwoLargest(det, AsReals(data));
    assert data[i] + data[j] < WORD;
    hide ReliableSorted, FencesFrom;
    assert s[|s| - 2] + s[|s| - 1] == (data[i] + data[j]) as real;
    assert s[0] <= s[|s| - 2] && s[1] <= s[|s| - 1];
  }

  /** When wrap-around puts the upper quartile below the lower one, every reading exceeds the limits. */
  lemma CrossedFences(s: seq<real>, x: real)
    requires |s| >= 2 && WrapSum(s[|s| - 2], s[|s| - 1]) < WrapSum(s[0], s[1])
    ensures Exceeds(x, EncoderFences(s))
  {
  }

  // ------------------------------------------------ exactly when it is safe

  /** Healthy counters are below 2^31 and close to one another. */
  ghost predicate Counted(data: Counters, faulty: set<nat>) {
    && (forall i :: 0 <= i < NUM_SENSORS && i !in faulty ==> data[i] < HALF_WORD)
    && Close(AsReals(data), faulty)
  }

  ghost predicate NoneExceeds(det: Detector, data: Counters, faulty: nat)
    requires det.Valid() && det.outliers <= 2
  {
    forall i :: 0 <= i < NUM_SENSORS && i != faulty ==>
      !Flagged(det, AsReals(data), EncoderFences(ReliableSorted(det, AsReals(data))), i)
  }

  /** The largest of the healthy counters. */
  lemma LargestHealthy(data: Counters, faulty: nat) returns (i: nat)
    requires faulty < NUM_SENSORS
    ensures i < NUM_SENSORS && i != faulty
    ensures forall j :: 0 <= j < NUM_SENSORS && j != faulty ==> data[j] <= data[i]
  {
    i := Other(faulty, faulty);
    var j := Other(faulty, i);
    if data[j] > data[i] {
      i := j;
    }
    var k := 6 - faulty - Other(faulty, faulty) - Other(faulty, Other(faulty, faulty));
    if data[k] > data[i] {
      i := k;
    }
  }

  /** A sorted sequence of four of which `f` exceeds the others, at most `c`. */
  lemma TopOfFour(s: seq<real>, others: seq<real>, c: real, f: real)
    requires Sorted(s) && |s| == 4 && multiset(s) == multiset(others) + multiset{f}
    requires c in others && c < f && forall y :: y in others ==> y <= c
    ensures s[3] == f && s[2] == c && s[0] in others && s[1] in others
  {
    LargestLast(s, others, f);
    SortMembers(others);
    var t := Sort(others);
    assert t[0] in t && t[1] in t && t[2] in t;
    var k :| 0 <= k < |t| && t[k] == c;
  }

  /** The arithmetic of the wrap: the largest healthy counter ends above the upper limit. */
  lemma WrappedLimit(a: real, b: real, c: real, f: real)
    requires 0.0 <= a <= b <= c < f <= WORD as real - 1.0 && c < HALF_WORD as real && c + f >= WORD as real
    ensures Exceeds(c, EncoderFences([a, b, c, f]))
  {
    var q1, q3 := WrapSum(a, b) / 2.0, WrapSum(c, f) / 2.0;
    assert q1 >= 0.0 && q3 <= (c - 1.0) / 2.0;
    assert EncoderFences([a, b, c, f]) == FencesFrom(q1, q3);
    assert FencesFrom(q1, q3).upper <= 2.0 * q3 - q1;
  }

  /** The order of four counters of which `faulty` is the largest and `i` the next. */
  lemma OrderOfFour(det: Detector, d: seq<real>, faulty: nat, i: nat) returns (a: real, b: real)
    requires det.Valid() && |d| == NUM_SENSORS && det.outliers == 0
    requires faulty < NUM_SENSORS && i < NUM_SENSORS && i != faulty && d[i] < d[faulty]
    requires forall j :: 0 <= j < NUM_SENSORS && j != faulty ==> 0.0 <= d[j] <= d[i]
    ensures ReliableSorted(det, d) == [a, b, d[i], d[faulty]] && 0.0 <= a <= b <= d[i]
  {
    AllReliable(det);
    hide Unreliable;
    var s := ReliableSorted(det, d);
    var others := Others(det, d, faulty);
    assert d[i] in others;
    forall y | y in others ensures 0.0 <= y <= d[i] {
    }
    FourInOrder(s, others, d[i], d[faulty]);
    a, b := s[0], s[1];
  }

  lemma FourInOrder(s: seq<real>, others: seq<real>, c: real, f: real)
    requires Sorted(s) && |s| == 4 && multiset(s) == multiset(others) + multiset{f}
    requires c in others && c < f && forall y :: y in others ==> 0.0 <= y <= c
    ensures s == [s[0], s[1], c, f] && 0.0 <= s[0] <= s[1] <= c
  {
    TopOfFour(s, others, c, f);
  }

  lemma WrapFlagsReal(det: Detector, d: seq<real>, faulty: nat, i: nat)
    requires det.Valid() && |d| == NUM_SENSORS && det.outliers == 0
    requires faulty < NUM_SENSORS && i < NUM_SENSORS && i != faulty && d[i] < d[faulty]
    requires forall j :: 0 <= j < NUM_SENSORS && j != faulty ==> 0.0 <= d[j] <= d[i]
    requires d[faulty] <= WORD as real - 1.0 && d[i] < HALF_WORD as real && d[i] + d[faulty] >= WORD as real
    ensures Flagged(det, d, EncoderFences(ReliableSorted(det, d)), i)
  {
    AllReliable(det);
    hide ReliableSorted, EncoderFences, Unreliable, Exceeds;
    var a, b := OrderOfFour(det, d, faulty, i);
    WrappedLimit(a, b, d[i], d[faulty]);
  }

  lemma WrapFlagsHealthy(det: Detector, data: Counters, faulty: nat, i: nat)
    requires det.Valid() && det.outliers == 0 && faulty < NUM_SENSORS && Counted(data, {faulty})
    requires i < NUM_SENSORS && i != faulty && data[i] + data[faulty] >= WORD
    requires forall j :: 0 <= j < NUM_SENSORS && j != faulty ==> data[j] <= data[i]
    ensures Flagged(det, AsReals(data), EncoderFences(ReliableSorted(det, AsReals(data))), i)
  {
    assert data[i] < HALF_WORD;
    hide Counted, EncoderFences, ReliableSorted;
    WrapFlagsReal(det, AsReals(data), faulty, i);
  }

  /** One faulty encoder leaves three healthy ones alone exactly when its counter does
      not wrap with any of theirs. Otherwise the largest healthy one is flagged. */
  lemma EncoderSafeExactly(det: Detector, data: Counters, faulty: nat)
    requires det.Valid() && det.outliers == 0 && faulty < NUM_SENSORS && Counted(data, {faulty})
    ensures NoneExceeds(det, data, faulty) <==>
      forall i :: 0 <= i < NUM_SENSORS && i != faulty ==> data[i] + data[faulty] < WORD
  {
    UnreliableOfFour(det.reliable);
    if forall i :: 0 <= i < NUM_SENSORS && i != faulty ==> data[i] + data[faulty] < WORD {
      JudgedAlike(det, data);
      hide Close, Flagged, EncoderFences, ReliableSorted, FencesFor;
      forall i | 0 <= i < NUM_SENSORS && i != faulty
        ensures !Flagged(det, AsReals(data), EncoderFences(ReliableSorted(det, AsReals(data))), i)
      {
        HealthyNeverFlagged(det, AsReals(data), {faulty}, i);
      }
    } else {
      var i := LargestHealthy(data, faulty);
      WrapFlagsHealthy(det, data, faulty, i);
    }
  }

  // ------------------------------------------------------------- whole runs

  /** The encoder detector after the given calls, or that it has raised. */
  datatype Watch = Stopped | Watching(det: Detector)

  function EncoderRun(ds: seq<Counters>): (o: Watch)
    ensures o.Watching? ==> o.det.Valid()
  {
    if ds == [] then
      UnreliableOfFour(FRESH.reliable);
      Watching(FRESH)
    else
      var o := EncoderRun(ds[..|ds| - 1]);
      if o.Stopped? || o.det.outliers > 2 then Stopped else Watching(EncoderStep(o.det, ds[|ds| - 1]))
  }

  lemma EncoderRunOnceMore(ds: seq<Counters>, d: Counters)
    ensures var o := EncoderRun(ds);
      EncoderRun(ds + [d]) == if o.Stopped? || o.det.outliers > 2 then Stopped else Watching(EncoderStep(o.det, d))
  {
    assert (ds + [d])[..|ds|] == ds;
  }

  ghost predicate AllCounted(ds: seq<Counters>, faulty: set<nat>) {
    forall k :: 0 <= k < |ds| ==> Counted(ds[k], faulty) && NoWrap(ds[k])
  }

  ghost predicate Untouched(det: Detector, faulty: set<nat>) {
    && det.Valid() && !det.critical && det.outliers <= 1
    && forall i :: 0 <= i < NUM_SENSORS && i !in faulty ==> det.reliable[i] && det.counter[i] == 0
  }

  lemma UntouchedKept(det: Detector, data: Counters, faulty: set<nat>)
    requires |faulty| <= 1 && Untouched(det, faulty) && Counted(data, faulty) && NoWrap(data)
    ensures Untouched(EncoderStep(det, data), faulty)
  {
    JudgedAlike(det, data);
    hide Close, EncoderFences, ReliableSorted, FencesFor, NoWrap, Exceeds;
    var t := EncoderStep(det, data);
    forall i | 0 <= i < NUM_SENSORS && i !in faulty
      ensures t.reliable[i] && t.counter[i] == 0
    {
      HealthyNeverFlagged(det, AsReals(data), faulty, i);
    }
    AtMostOneOut(t.reliable, faulty);
  }

  /** One-fault tolerance of the encoders over whole runs, as long as nothing wraps. */
  lemma {:induction false} EncoderTolerance(ds: seq<Counters>, faulty: set<nat>)
    requires |faulty| <= 1 && AllCounted(ds, faulty)
    ensures EncoderRun(ds).Watching? && Untouched(EncoderRun(ds).det, faulty)
  {
    if ds == [] {
      UnreliableOfFour(FRESH.reliable);
    } else {
      hide EncoderStep, Counted, NoWrap;
      EncoderTolerance(ds[..|ds| - 1], faulty);
      UntouchedKept(EncoderRun(ds[..|ds| - 1]).det, ds[|ds| - 1], faulty);
    }
  }

  // -------------------------------------------------- one fault that wraps

  const STUCK: Counters := [100, 100, 100, 0xFFFF_FFFF]

  lemma StuckSorted(det: Detector)
    requires det.Valid() && det.outliers == 0
    ensures ReliableSorted(det, AsReals(STUCK)) == [100.0, 100.0, 100.0, 4294967295.0]
  {
    UnreliableOfFour(det.reliable);
    var d := AsReals(STUCK);
    var s := ReliableSorted(det, d);
    var others := Others(det, d, 3);
    assert d[0] == 100.0 && d[0] in others && forall y :: y in others ==> y == 100.0;
    TopOfFour(s, others, 100.0, 4294967295.0);
    assert s == [s[0], s[1], s[2], s[3]];
  }

  /** A call that flags all four. */
  lemma AllFlaggedStep(det: Detector, data: seq<real>, f: Fences, n: nat)
    requires det.Valid() && |data| == NUM_SENSORS && det.outliers == 0 && det.counter == [n, n, n, n]
    requires forall i :: 0 <= i < NUM_SENSORS ==> Exceeds(data[i], f)
    ensures var t := Step(det, data, f);
      && t.counter == [n + 1, n + 1, n + 1, n + 1]
      && t.outliers == if n < MAX_STREAK then 0 else NUM_SENSORS
  {
    AllReliable(det);
    hide Exceeds;
    var t := Step(det, data, f);
    assert t.counter == [n + 1, n + 1, n + 1, n + 1];
    UnreliableOfFour(t.reliable);
  }

  lemma StuckStep(det: Detector, n: nat)
    requires det.Valid() && det.outliers == 0 && det.counter == [n, n, n, n]
    ensures var t := EncoderStep(det, STUCK);
      && t.counter == [n + 1, n + 1, n + 1, n + 1]
      && t.outliers == if n < MAX_STREAK then 0 else NUM_SENSORS
  {
    StuckSorted(det);
    hide ReliableSorted, EncoderFences, Exceeds, Step;
    var d, s := AsReals(STUCK), [100.0, 100.0, 100.0, 4294967295.0];
    forall i | 0 <= i < NUM_SENSORS ensures Exceeds(d[i], EncoderFences(s)) {
      CrossedFences(s, d[i]);
    }
    AllFlaggedStep(det, d, EncoderFences(s), n);
  }

  lemma {:induction false} StuckRun(ds: seq<Counters>)
    requires |ds| <= MAX_STREAK && forall k :: 0 <= k < |ds| ==> ds[k] == STUCK
    ensures var o := EncoderRun(ds);
      o.Watching? && o.det.outliers == 0 && o.det.counter == [|ds|, |ds|, |ds|, |ds|]
  {
    if ds == [] {
      UnreliableOfFour(FRESH.reliable);
    } else {
      hide EncoderStep;
      StuckRun(ds[..|ds| - 1]);
      StuckStep(EncoderRun(ds[..|ds| - 1]).det, |ds| - 1);
    }
  }

  /** One encoder stuck at the largest counter takes all four out in 1001 calls while
      the three others agree exactly, and the next call raises. */
  lemma OneEncoderRaises(ds: seq<Counters>)
    requires |ds| == MAX_STREAK + 2 && forall k :: 0 <= k < |ds| ==> ds[k] == STUCK
    ensures EncoderRun(ds[..MAX_STREAK + 1]).Watching?
    ensures EncoderRun(ds[..MAX_STREAK + 1]).det.outliers == NUM_SENSORS
    ensures EncoderRun(ds).Stopped?
  {
    hide EncoderStep;
    var most, all := ds[..MAX_STREAK], ds[..MAX_STREAK + 1];
    StuckRun(most);
    assert all == most + [STUCK] && ds == all + [STUCK];
    EncoderRunOnceMore(most, STUCK);
    StuckStep(EncoderRun(most).det, MAX_STREAK);
    EncoderRunOnceMore(all, STUCK);
  }
}
