/** The four redundant IMUs as navigation keeps them: their outlier detector and
    their filters, together the state that Fusion analyses. */
module ImuArrays {
  import opened Statistics
  import opened OutlierDetection
  import opened SensorBanks
  import opened Kalman
  import opened Fusion
  import opened FilterBanks

  lemma StartIsInitial(s: Fusion)
    requires s.det == FRESH && |s.filters| == |s.noise| == NUM_SENSORS
    requires forall i :: 0 <= i < NUM_SENSORS ==>
      s.filters[i] == Estimate(0.0, INITIAL_ERROR_VARIANCE) && s.noise[i] == TRACK_MEASUREMENT_VARIANCE
    ensures Initial(s)
  {
    UnreliableOfFour(FRESH.reliable);
  }

  class ImuArray {
    const bank: SensorBank
    const filters: FilterBank

    ghost predicate Valid()
      reads bank, bank.reliable, bank.counter, filters.filters
    {
      bank.Valid() && filters.Valid()
    }

    ghost function Value(): (r: Fusion)
      reads bank, bank.reliable, bank.counter, filters.filters
      ensures Valid() ==> r.Valid()
      ensures r.det.outliers == bank.outliers && r.det.critical == bank.critical
    {
      Fusion(bank.Value(), filters.Values(), filters.Noise())
    }

    constructor ()
      ensures Valid() && Initial(Value())
      ensures fresh(bank) && fresh(bank.reliable) && fresh(bank.counter) && fresh(filters.filters)
    {
      bank := new SensorBank();
      filters := new FilterBank();
      new;
      hide SensorBank.Value, SensorBank.Valid, FilterBank.Valid, FilterBank.Values, FilterBank.Noise;
      StartIsInitial(Value());
    }

    /** Detection on the movement axis, then the filters of the reliable IMUs. */
    method DetectAndFilter(moving: array<real>, unset: real) returns (mean: real)
      requires Valid() && moving.Length == NUM_SENSORS && bank.outliers <= 2
      modifies moving, bank, bank.reliable, bank.counter, filters.filters
      ensures Valid() && mean == Fused(Value())
      ensures Value() == Next(old(Value()), Query(old(moving[..]), unset))
    {
      hide Step, Correct, FilterAll, ReliableSorted, Replaced, Mean, Gather;
      bank.ImuOutlierDetection(moving, unset);
      mean := filters.FilterReliable(bank.reliable, moving);
    }

    /** Sets the measurement variance of one filter. */
    method UpdateMeasurementCovariance(i: nat, variance: real)
      requires Valid() && i < NUM_SENSORS && variance >= 0.0
      modifies filters.filters
      ensures Valid() && Value() == old(Value()).(noise := old(Value().noise)[i := variance])
    {
      hide SensorBank.Value, SensorBank.Valid, FilterBank.Valid, FilterBank.Values, FilterBank.Noise;
      filters.UpdateMeasurementCovariance(i, variance);
    }
  }
}
