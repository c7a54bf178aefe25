/** What one query does to the IMUs, told from the readings and the fields alone: which are
    flagged and dropped, what each filter takes, and what is fused. */
module QueryLaws {
  import opened Arithmetic
  import opened Statistics
  import opened OutlierDetection
  import opened Medians
  import opened Kalman
  import opened Fusion

  /** `f` is `e` after a measurement `z` of variance `r`: the estimates weighted by their precisions. */
  ghost predicate Weighs(e: Estimate, f: Estimate, z: real, r: real) {
    && (f.x - e.x) * r == (z - f.x) * (e.p + 0.02)
    && f.p * (e.p + 0.02 + r) == (e.p + 0.02) * r
  }

  /** With at most one sensor out, sensor `i` reads more than 6 above or below all other reliable
      ones; with two out, it differs from the other. */
  ghost predicate Suspect(det: Detector, data: Readings, i: nat)
    requires det.Valid() && i < NUM_SENSORS
  {
    && det.reliable[i]
    && if det.outliers <= 1 then FarFromAll(det, data, i)
       else exists j :: 0 <= j < NUM_SENSORS && j != i && det.reliable[j] && data[j] != data[i]
  }

  /** What reaches the filter of sensor `i`. */
  ghost predicate Passes(det: Detector, q: Query, i: nat, z: real)
    requires det.Valid() && i < NUM_SENSORS
  {
    if !Suspect(det, q.readings, i) then z == q.readings[i]
    else if det.outliers <= 1 then TrimmedMean(z, det.reliable, q.readings)
    else z == q.unset
  }

  lemma TheOther(det: Detector, i: nat) returns (j: nat)
    requires det.Valid() && det.outliers == 2 && i < NUM_SENSORS && det.reliable[i]
    ensures j < NUM_SENSORS && j != i && det.reliable[j]
    ensures forall k :: 0 <= k < NUM_SENSORS && k != i && det.reliable[k] ==> k == j
  {
    UnreliableOfFour(det.reliable);
    j :| 0 <= j < NUM_SENSORS && j != i && det.reliable[j];
  }

  lemma SuspectIsFlagged(det: Detector, data: Readings, i: nat)
    requires det.Valid() && det.outliers <= 2 && i < NUM_SENSORS
    ensures Flagged(det, data, FencesFor(det, data), i) <==> Suspect(det, data, i)
  {
    hide FarFromAll, ReliableSorted, FencesOf;
    if det.reliable[i] {
      if det.outliers <= 1 {
        FlaggedExactly(det, data, i);
      } else {
        var j := TheOther(det, i);
        FlaggedWithTwo(det, data, i, j);
      }
    }
  }

  lemma CorrectWeighs(e: Estimate, z: real, r: real)
    requires e.p >= 0.0 && r >= 0.0
    ensures Weighs(e, Correct(e, z, STATE_TRANSITION_VARIANCE, r), z, r)
  {
    PrecisionWeighted(e, z, STATE_TRANSITION_VARIANCE, r);
    hide Correct;
  }

  /** A suspect sensor is counted, and dropped at its 1001st time in a row; any other starts anew. */
  lemma VerdictLaw(s: Fusion, q: Query, i: nat)
    requires s.Valid() && s.det.outliers <= 2 && i < NUM_SENSORS
    ensures var suspect, t := Suspect(s.det, q.readings, i), Next(s, q).det;
      && (t.reliable[i] <==> s.det.reliable[i] && !(suspect && s.det.counter[i] >= 1000))
      && t.counter[i] == if suspect then s.det.counter[i] + 1 else 0
  {
    hide Suspect, FencesFor, FilterAll, CleanReadings, Exceeds;
    SuspectIsFlagged(s.det, q.readings, i);
  }

  lemma PassesClean(det: Detector, q: Query, i: nat)
    requires det.Valid() && det.outliers <= 2 && i < NUM_SENSORS
    ensures Passes(det, q, i, CleanReadings(det, q)[i])
  {
    SuspectIsFlagged(det, q.readings, i);
    hide Suspect, ReliableSorted, FencesOf, Median, TrimmedMean, Exceeds;
    if det.outliers <= 1 {
      MedianIsTrimmedMean(det, q.readings);
    }
  }

  /** The filter of an IMU that stays reliable weighs in its reading, or in place of a suspect one the
      trimmed mean; the filter of any other keeps its estimate. */
  lemma FilterLaw(s: Fusion, q: Query, i: nat)
    requires s.Valid() && s.det.outliers <= 2 && i < NUM_SENSORS
    ensures var t := Next(s, q);
      if t.det.reliable[i]
      then exists z :: Passes(s.det, q, i, z) && Weighs(s.filters[i], t.filters[i], z, s.noise[i])
      else t.filters[i] == s.filters[i]
  {
    var z := CleanReadings(s.det, q)[i];
    PassesClean(s.det, q, i);
    CorrectWeighs(s.filters[i], z, s.noise[i]);
    hide Correct, CleanReadings, Passes, Weighs, Step, FencesFor;
    if Next(s, q).det.reliable[i] {
      assert Passes(s.det, q, i, z) && Weighs(s.filters[i], Next(s, q).filters[i], z, s.noise[i]);
    }
  }

  /** The fused acceleration is the mean of the reliable estimates. */
  lemma FusedLaw(s: Fusion)
    requires s.Valid() && s.det.outliers < NUM_SENSORS
    ensures Times(Count(s.det.reliable) as real, Fused(s)) == Total(s.det.reliable, Estimates(s.filters))
  {
    var g := Gather(s.det.reliable, Estimates(s.filters), NUM_SENSORS);
    TotalIsSum(s.det.reliable, Estimates(s.filters));
    UnreliableOfFour(s.det.reliable);
    MeanTimesCount(g, Mean(g));
  }
}
