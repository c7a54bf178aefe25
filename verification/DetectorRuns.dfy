/** Bookkeeping of the outlier detector over whole runs of calls.

    Nothing here depends on how the fences are computed, so the results hold for
    the IMUs and for the wheel encoders alike. */
module DetectorRuns {
  import opened OutlierDetection

  datatype Call = Call(readings: Readings, fences: Fences)

  function Run(cs: seq<Call>): (det: Detector)
    ensures det.Valid()
  {
    if cs == [] then
      UnreliableOfFour(FRESH.reliable);
      FRESH
    else
      Step(Run(cs[..|cs| - 1]), cs[|cs| - 1].readings, cs[|cs| - 1].fences)
  }

  predicate FlaggedLast(cs: seq<Call>, i: nat)
    requires cs != [] && i < NUM_SENSORS
  {
    Flagged(Run(cs[..|cs| - 1]), cs[|cs| - 1].readings, cs[|cs| - 1].fences, i)
  }

  /** Length of the run of consecutive calls, ending with the last, that flagged sensor `i`. */
  function Streak(cs: seq<Call>, i: nat): nat
    requires i < NUM_SENSORS
  {
    if cs == [] || !FlaggedLast(cs, i) then 0 else 1 + Streak(cs[..|cs| - 1], i)
  }

  ghost predicate ReachedLimit(cs: seq<Call>, i: nat)
    requires i < NUM_SENSORS
  {
    exists k :: 0 <= k <= |cs| && Streak(cs[..k], i) == 1001
  }

  /** A reliable sensor's counter is the length of its current flagged streak. */
  lemma {:induction false} CounterIsStreak(cs: seq<Call>, i: nat)
    requires i < NUM_SENSORS
    ensures Run(cs).reliable[i] ==> Run(cs).counter[i] == Streak(cs, i) <= 1000
    ensures !Run(cs).reliable[i] ==> Streak(cs, i) in {0, 1001}
  {
    if cs != [] {
      CounterIsStreak(cs[..|cs| - 1], i);
    }
  }

  lemma PrefixOfInit(cs: seq<Call>, k: nat)
    requires k < |cs|
    ensures cs[..|cs| - 1][..k] == cs[..k]
  {
  }

  lemma ReachedBefore(cs: seq<Call>, i: nat)
    requires i < NUM_SENSORS && cs != [] && ReachedLimit(cs[..|cs| - 1], i)
    ensures ReachedLimit(cs, i)
  {
    hide Streak;
    var init := cs[..|cs| - 1];
    var k :| 0 <= k <= |init| && Streak(init[..k], i) == 1001;
    PrefixOfInit(cs, k);
    assert Streak(cs[..k], i) == 1001;
  }

  lemma ReachedNow(cs: seq<Call>, i: nat)
    requires i < NUM_SENSORS && Streak(cs, i) == 1001
    ensures ReachedLimit(cs, i)
  {
    hide Streak;
    assert cs[..|cs|] == cs;
  }

  lemma ReachedEither(cs: seq<Call>, i: nat)
    requires i < NUM_SENSORS && cs != [] && ReachedLimit(cs, i)
    ensures ReachedLimit(cs[..|cs| - 1], i) || Streak(cs, i) == 1001
  {
    hide Streak;
    var k :| 0 <= k <= |cs| && Streak(cs[..k], i) == 1001;
    if k < |cs| {
      PrefixOfInit(cs, k);
      assert Streak(cs[..|cs| - 1][..k], i) == 1001;
    } else {
      assert cs[..k] == cs;
    }
  }

  /** A sensor is dropped exactly when its streak first reaches 1001, and never comes back. */
  lemma {:induction false} DroppedAtLimit(cs: seq<Call>, i: nat)
    requires i < NUM_SENSORS
    ensures !Run(cs).reliable[i] <==> ReachedLimit(cs, i)
  {
    if cs == [] {
      assert cs[..0] == [];
    } else {
      hide ReachedLimit;
      DroppedAtLimit(cs[..|cs| - 1], i);
      CounterIsStreak(cs[..|cs| - 1], i);
      if ReachedLimit(cs, i) {
        ReachedEither(cs, i);
      }
      if ReachedLimit(cs[..|cs| - 1], i) {
        ReachedBefore(cs, i);
      }
      if Streak(cs, i) == 1001 {
        ReachedNow(cs, i);
      }
    }
  }

  lemma {:induction false} NeverRegained(cs: seq<Call>, k: nat, i: nat)
    requires i < NUM_SENSORS && k <= |cs| && Run(cs).reliable[i]
    ensures Run(cs[..k]).reliable[i]
  {
    if k < |cs| {
      assert cs[..|cs| - 1][..k] == cs[..k];
      NeverRegained(cs[..|cs| - 1], k, i);
    } else {
      assert cs[..k] == cs;
    }
  }

  /** The outlier count is the number of unreliable sensors, and the detector is
      critical by the end of a call exactly when at least two have been dropped. */
  lemma {:induction false} CriticalIffTwoDropped(cs: seq<Call>)
    ensures Run(cs).outliers == Unreliable(Run(cs).reliable, NUM_SENSORS)
    ensures Run(cs).critical <==> Run(cs).outliers >= 2
  {
    if cs != [] {
      var det, c := Run(cs[..|cs| - 1]), cs[|cs| - 1];
      CriticalIffTwoDropped(cs[..|cs| - 1]);
      UnreliableOfFour(det.reliable);
      UnreliableOfFour(Run(cs).reliable);
    } else {
      UnreliableOfFour(FRESH.reliable);
    }
  }
}
