/** The four IMU filters, run together over the readings of one query. */
module FilterBanks {
  import opened Statistics
  import opened OutlierDetection
  import opened Kalman
  import opened Fusion

  lemma {:induction false} GatherOfPrefix(reliable: seq<bool>, d1: seq<real>, d2: seq<real>, n: nat)
    requires n <= |reliable| == |d1| == |d2| && forall k :: 0 <= k < n ==> d1[k] == d2[k]
    ensures Gather(reliable, d1, n) == Gather(reliable, d2, n)
  {
    if n > 0 {
      GatherOfPrefix(reliable, d1, d2, n - 1);
    }
  }

  lemma FilterOneMore(
      reliable: seq<bool>, filters: seq<Estimate>, noise: seq<real>, clean: seq<real>, n: nat, r: seq<Estimate>)
    requires |reliable| == |filters| == |noise| == |clean| && n < |filters|
    requires forall i :: 0 <= i < |filters| ==> filters[i].p >= 0.0 && noise[i] >= 0.0
    requires r == FilterAll(reliable, filters, noise, clean, n)
    ensures FilterAll(reliable, filters, noise, clean, n + 1)
      == if reliable[n] then r[n := Correct(r[n], clean[n], STATE_TRANSITION_VARIANCE, noise[n])] else r
  {
    hide Correct;
  }

  lemma NoneFiltered(reliable: seq<bool>, filters: seq<Estimate>, noise: seq<real>, clean: seq<real>)
    requires |reliable| == |filters| == |noise| == |clean|
    requires forall i :: 0 <= i < |filters| ==> filters[i].p >= 0.0 && noise[i] >= 0.0
    ensures FilterAll(reliable, filters, noise, clean, 0) == filters
    ensures Gather(reliable, Estimates(filters), 0) == []
  {
  }

  lemma GatherOneMore(reliable: seq<bool>, before: seq<Estimate>, after: seq<Estimate>, n: nat)
    requires n < |reliable| == |before| == |after| && forall k :: 0 <= k < n ==> after[k] == before[k]
    ensures Gather(reliable, Estimates(after), n + 1)
         == Gather(reliable, Estimates(before), n) + if reliable[n] then [after[n].x] else []
  {
    GatherOfPrefix(reliable, Estimates(before), Estimates(after), n);
  }

  class FilterBank {
    const filters: seq<KalmanFilter>

    ghost predicate Valid()
      reads filters
    {
      && |filters| == NUM_SENSORS
      && (forall i :: 0 <= i < NUM_SENSORS ==> filters[i].Valid() && filters[i].q == STATE_TRANSITION_VARIANCE)
      && (forall i, j :: 0 <= i < j < NUM_SENSORS ==> filters[i] != filters[j])
    }

    ghost function Values(): (r: seq<Estimate>)
      reads filters
      ensures |r| == |filters|
    {
      seq(|filters|, i requires 0 <= i < |filters| reads filters => filters[i].Value())
    }

    ghost function Noise(): (r: seq<real>)
      reads filters
      ensures |r| == |filters|
    {
      seq(|filters|, i requires 0 <= i < |filters| reads filters => filters[i].r)
    }

    constructor ()
      ensures Valid() && fresh(filters)
      ensures forall i :: 0 <= i < NUM_SENSORS ==>
        Values()[i] == Estimate(0.0, INITIAL_ERROR_VARIANCE) && Noise()[i] == TRACK_MEASUREMENT_VARIANCE
    {
      var fs: seq<KalmanFilter> := [];
      for i := 0 to NUM_SENSORS
        invariant |fs| == i && fresh(fs)
        invariant forall k :: 0 <= k < i ==> fs[k].Valid() && fs[k].q == STATE_TRANSITION_VARIANCE
        invariant forall k :: 0 <= k < i ==>
          fs[k].Value() == Estimate(0.0, INITIAL_ERROR_VARIANCE) && fs[k].r == TRACK_MEASUREMENT_VARIANCE
        invariant forall k, l :: 0 <= k < l < i ==> fs[k] != fs[l]
      {
        var f := new KalmanFilter.Setup();
        fs := fs + [f];
      }
      filters := fs;
    }

    method FilterOne(i: nat, reading: real) returns (estimate: real)
      requires Valid() && i < NUM_SENSORS
      modifies filters
      ensures Valid() && Noise() == old(Noise())
      ensures Values() == old(Values())[i := Correct(old(Values()[i]), reading, STATE_TRANSITION_VARIANCE, Noise()[i])]
      ensures estimate == Values()[i].x
    {
      hide Correct;
      estimate := filters[i].Filter(reading);
      assert Noise() == old(Noise());
    }

    /** One pass through the loop: a reliable IMU is filtered and its estimate averaged. */
    method FilterNext(i: nat, isReliable: bool, reading: real, average: OnlineStatistics)
      requires Valid() && i < NUM_SENSORS && average.Valid()
      modifies filters, average
      ensures Valid() && average.Valid() && Noise() == old(Noise())
      ensures Values() == (if isReliable
                then old(Values())[i := Correct(old(Values()[i]), reading, STATE_TRANSITION_VARIANCE, Noise()[i])]
                else old(Values()))
      ensures average.seen == old(average.seen) + (if isReliable then [Values()[i].x] else [])
    {
      hide Correct, Mean, Deviations, Variance, Sum;
      if isReliable {
        var estimate := FilterOne(i, reading);
        average.Update(estimate);
      }
    }

    /** Filters the readings of the reliable IMUs and averages the estimates. */
    method FilterReliable(reliable: array<bool>, data: array<real>) returns (mean: real)
      requires Valid() && reliable.Length == data.Length == NUM_SENSORS
      modifies filters
      ensures Valid() && Noise() == old(Noise())
      ensures Values() == FilterAll(reliable[..], old(Values()), Noise(), data[..], NUM_SENSORS)
      ensures mean == Mean(Gather(reliable[..], Estimates(Values()), NUM_SENSORS))
    {
      ghost var values, noise := Values(), Noise();
      assert forall i :: 0 <= i < NUM_SENSORS ==> values[i].p >= 0.0 && noise[i] >= 0.0;
      hide Correct, Mean, Deviations, Variance, Sum, Valid, Values, Noise, FilterAll, Gather;
      var average := new OnlineStatistics();
      NoneFiltered(reliable[..], values, noise, data[..]);
      for i := 0 to NUM_SENSORS
        invariant average.Valid() && Valid() && Noise() == noise
        invariant Values() == FilterAll(reliable[..], values, noise, data[..], i)
        invariant average.seen == Gather(reliable[..], Estimates(Values()), i)
      {
        ghost var before := Values();
        FilterNext(i, reliable[i], data[i], average);
        FilterOneMore(reliable[..], values, noise, data[..], i, before);
        GatherOneMore(reliable[..], before, Values(), i);
      }
      mean := average.mean;
    }

    method UpdateMeasurementCovariance(i: nat, variance: real)
      requires Valid() && i < NUM_SENSORS && variance >= 0.0
      modifies filters
      ensures Valid() && Values() == old(Values()) && Noise() == old(Noise())[i := variance]
    {
      filters[i].UpdateMeasurementCovariance(variance);
      assert Values() == old(Values()) && Noise() == old(Noise())[i := variance];
    }
  }
}
