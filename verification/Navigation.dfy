/** The navigation module: it calibrates, queries the IMUs and the wheel
    encoders, reckons the motion, and publishes the result. */
module Navigation {
  import opened Arithmetic
  import opened PodData
  import opened Statistics
  import opened OutlierDetection
  import opened SensorBanks
  import opened Fusion
  import opened ImuArrays
  import opened Motion
  import opened Braking
  import opened Vibration
  import opened Calibration

  /** Gravity-corrected readings of one axis. */
  function Corrected(imu: ImuData, gravity: ImuData, axis: Axis): (r: Readings) {
    seq(NUM_SENSORS, i requires 0 <= i < NUM_SENSORS => imu[i][axis] - gravity[i][axis])
  }

  function SnapshotOf(imu: ImuData, gravity: ImuData): (r: Snapshot) {
    seq(NUM_AXES, axis requires 0 <= axis < NUM_AXES => Corrected(imu, gravity, axis))
  }

  /** Every IMU reads its gravity plus `u`, on every axis. */
  ghost predicate AboveGravity(imu: ImuData, gravity: ImuData, u: Snapshot) {
    forall i, axis :: 0 <= i < NUM_SENSORS && 0 <= axis < NUM_AXES ==>
      imu[i][axis] == gravity[i][axis] + u[axis][i]
  }

  /** That makes `u` the corrected readings. */
  lemma CorrectedAboveGravity(imu: ImuData, gravity: ImuData, u: Snapshot, axis: Axis)
    requires AboveGravity(imu, gravity, u)
    ensures u == SnapshotOf(imu, gravity) && u[axis] == Corrected(imu, gravity, axis)
  {
    forall a | 0 <= a < NUM_AXES ensures u[a] == Corrected(imu, gravity, a) {
      assert forall i :: 0 <= i < NUM_SENSORS ==> imu[i][a] - gravity[i][a] == u[a][i];
    }
  }

  /** Means of one IMU's samples in calibration attempt `a`. */
  ghost function AttemptMean(imu: nat -> ImuData, a: nat, i: nat): (v: Vector)
    requires i < NUM_SENSORS
  {
    [Mean(OwnSamples(imu, a, i, 0)), Mean(OwnSamples(imu, a, i, 1)), Mean(OwnSamples(imu, a, i, 2))]
  }

  /** Sum of the variances of one IMU's three components in attempt `a`. */
  ghost function AttemptNoise(imu: nat -> ImuData, a: nat, i: nat): real
    requires i < NUM_SENSORS
  {
    Variance(OwnSamples(imu, a, i, 0)) + Variance(OwnSamples(imu, a, i, 1)) + Variance(OwnSamples(imu, a, i, 2))
  }

  /** Gravity and filter noise of every IMU are those of attempt `a` alone. */
  ghost predicate MeasuredBy(imu: nat -> ImuData, a: nat, gravity: ImuData, noise: seq<real>) {
    && |noise| == NUM_SENSORS
    && forall i :: 0 <= i < NUM_SENSORS ==>
         gravity[i] == AttemptMean(imu, a, i) && noise[i] == AttemptNoise(imu, a, i)
  }

  /** The same, component by component. */
  lemma MeasuredComponents(imu: nat -> ImuData, a: nat, gravity: ImuData, noise: seq<real>)
    requires MeasuredBy(imu, a, gravity, noise)
    ensures forall i, axis :: 0 <= i < NUM_SENSORS && 0 <= axis < NUM_AXES ==>
      gravity[i][axis] == Mean(OwnSamples(imu, a, i, axis))
    ensures |noise| == NUM_SENSORS && forall i :: 0 <= i < NUM_SENSORS ==>
      noise[i] == Variance(OwnSamples(imu, a, i, 0)) + Variance(OwnSamples(imu, a, i, 1))
                  + Variance(OwnSamples(imu, a, i, 2))
  {
    hide OwnSamples, Mean, Variance;
    forall i, axis | 0 <= i < NUM_SENSORS && 0 <= axis < NUM_AXES
      ensures gravity[i][axis] == Mean(OwnSamples(imu, a, i, axis))
    {
      assert gravity[i] == AttemptMean(imu, a, i);
    }
  }

  /** What the trackers of an attempt hold for one IMU. */
  lemma StoredAreMeasured(imu: nat -> ImuData, a: nat, means: seq<real>, variances: seq<real>)
    requires |means| == |variances| == NUM_TRACKERS
    requires forall p :: 0 <= p < NUM_TRACKERS ==>
      means[p] == Mean(AttemptSamples(imu, a, p)) && variances[p] == Variance(AttemptSamples(imu, a, p))
    ensures forall i :: 0 <= i < NUM_SENSORS ==>
      && means[3 * i..3 * i + 3] == AttemptMean(imu, a, i)
      && variances[3 * i] + variances[3 * i + 1] + variances[3 * i + 2] == AttemptNoise(imu, a, i)
  {
    hide OwnSamples, AttemptSamples, Mean, Variance;
    forall i | 0 <= i < NUM_SENSORS
      ensures means[3 * i..3 * i + 3] == AttemptMean(imu, a, i)
      ensures variances[3 * i] + variances[3 * i + 1] + variances[3 * i + 2] == AttemptNoise(imu, a, i)
    {
      OwnSamplesAre(imu, a, i, 0);
      OwnSamplesAre(imu, a, i, 1);
      OwnSamplesAre(imu, a, i, 2);
    }
  }

  /** What one pass reads from the sensors, and when; data points keep the low 32 bits of the
      time. `unset` and `unsetCounter` are the contents of the median slots of IMUs and
      encoders, which stay unwritten once two of a bank are out. */
  datatype Inputs = Inputs(imu: ImuData, micros: nat, encoders: Counters, unset: real, unsetCounter: nat)

  const NO_GRAVITY: ImuData := [AT_REST, AT_REST, AT_REST, AT_REST]

  const WHEEL_CIRCUMFERENCE := 0.314159265359
  const IMU_ENCODER_MAX_ERROR := 2.0

  function CounterSum(data: seq<nat>): nat {
    if data == [] then 0 else CounterSum(data[..|data| - 1]) + data[|data| - 1]
  }

  /** Displacement told by the encoders: the sum wraps at 32 bits and the division rounds down. */
  function EncoderDistance(data: Counters): real {
    (CounterSum(data) % WORD / NUM_SENSORS) as real * WHEEL_CIRCUMFERENCE
  }

  /** That is the average of the four counters, times the circumference of the wheel. */
  lemma DistanceOfFour(d: Counters)
    ensures EncoderDistance(d) == ((d[0] + d[1] + d[2] + d[3]) % 0x1_0000_0000 / 4) as real * 0.314159265359
  {
    assert d[..4] == d && d[..4][..3] == d[..3] && d[..3][..2] == d[..2] && d[..2][..1] == d[..1] && d[..1][..0] == [];
    assert CounterSum(d[..1]) == d[0] && CounterSum(d[..2]) == d[0] + d[1];
    assert CounterSum(d[..3]) == d[0] + d[1] + d[2];
  }

  class Navigation {
    var status: ModuleStatus
    const movementAxis: Axis
    var hasInitialTime: bool
    var gravityCalibration: ImuData
    const imus: ImuArray
    const encoders: SensorBank
    const monitor: VibrationMonitor
    const reckoner: DeadReckoner
    var acceleration: DataPoint
    var encoderDisplacement: real
    var published: PodData.Navigation

    ghost predicate Intact()
      reads imus.bank, imus.bank.reliable, imus.bank.counter, imus.filters.filters
      reads encoders, encoders.reliable, encoders.counter, monitor, monitor.previousMeasurements, reckoner.Parts()
    {
      && imus.Valid() && encoders.Valid() && imus.bank != encoders
      && imus.bank.reliable != encoders.reliable && imus.bank.counter != encoders.counter
      && monitor.Valid() && monitor.movementAxis == movementAxis
      && reckoner.Valid()
    }

    /** The failure of a detector has reached the module's status. */
    ghost predicate Latched()
      reads this`status, imus.bank, encoders
    {
      imus.bank.critical || encoders.critical ==> status == CriticalFailure
    }

    ghost predicate Valid()
      reads this`status, imus.bank, imus.bank.reliable, imus.bank.counter, imus.filters.filters
      reads encoders, encoders.reliable, encoders.counter, monitor, monitor.previousMeasurements, reckoner.Parts()
    {
      Intact() && Latched()
    }

    constructor (axis: Axis)
      ensures Valid() && movementAxis == axis && status == Init
      ensures Initial(imus.Value()) && encoders.Value() == FRESH
      ensures !reckoner.Value().started && monitor.history == [] && !hasInitialTime
      ensures reckoner.Value().velocity.value == reckoner.Value().displacement.value == 0.0
      ensures published == PodData.Navigation(Init, 0.0, 0.0, 0.0, 0.0, 0.0)
    {
      hide SensorBank.Valid, ImuArray.Valid, ImuArray.Value, VibrationMonitor.Valid, DeadReckoner.Valid;
      status, movementAxis, hasInitialTime, encoderDisplacement := Init, axis, false, 0.0;
      gravityCalibration := NO_GRAVITY;
      imus := new ImuArray();
      encoders := new SensorBank();
      monitor := new VibrationMonitor(axis);
      reckoner := new DeadReckoner();
      acceleration := DataPoint(0, 0.0);
      published := PodData.Navigation(Init, 0.0, 0.0, 0.0, 0.0, 0.0);
    }

    /** The gravity-corrected readings by axis, and those of the movement axis in an array of their own. */
    method CorrectGravity(imu: ImuData) returns (raw: Snapshot, moving: array<real>)
      requires imus.Valid()
      ensures raw == SnapshotOf(imu, gravityCalibration)
      ensures fresh(moving) && moving.Length == NUM_SENSORS
      ensures moving[..] == Corrected(imu, gravityCalibration, movementAxis)
    {
      ghost var g := gravityCalibration;
      moving := new real[NUM_SENSORS];
      var x: seq<real>, y: seq<real>, z: seq<real> := [], [], [];
      for i := 0 to NUM_SENSORS
        invariant x == Corrected(imu, g, 0)[..i]
        invariant y == Corrected(imu, g, 1)[..i]
        invariant z == Corrected(imu, g, 2)[..i]
        invariant moving[..i] == Corrected(imu, g, movementAxis)[..i]
      {
        x := x + [imu[i][0] - gravityCalibration[i][0]];
        y := y + [imu[i][1] - gravityCalibration[i][1]];
        z := z + [imu[i][2] - gravityCalibration[i][2]];
        if !imus.bank.reliable[i] {
          moving[i] := 0.0;
        }
        moving[i] := imu[i][movementAxis] - gravityCalibration[i][movementAxis];
      }
      assert moving[..] == moving[..NUM_SENSORS];
      raw := [x, y, z];
      assert x == Corrected(imu, g, 0) && y == Corrected(imu, g, 1) && z == Corrected(imu, g, 2);
      assert raw == SnapshotOf(imu, g);
    }

    /** Stores the snapshot and, once the ring is full, checks for vibration; the check only logs. */
    method StoreMeasurement(raw: Snapshot)
      requires monitor.Valid()
      modifies monitor, monitor.previousMeasurements
      ensures monitor.Valid() && monitor.history == old(monitor.history) + [raw]
    {
      monitor.Store(raw);
      if monitor.previousFilled {
        var variances := monitor.CheckVibration();
      }
    }

    /** Takes the fused value through both integrators. */
    method Integrate(timestamp: nat, mean: real)
      requires Intact()
      modifies this`acceleration, reckoner.Parts()
      ensures Intact() && imus.Value() == old(imus.Value()) && acceleration == DataPoint(timestamp, mean)
      ensures reckoner.Value() == Reckon(old(reckoner.Value()), acceleration)
    {
      hide SensorBank.Valid, ImuArray.Valid, ImuArray.Value, VibrationMonitor.Valid;
      acceleration := DataPoint(timestamp, mean);
      reckoner.Update(acceleration);
    }

    /** The query up to the fused value. */
    method Sense(inputs: Inputs) returns (mean: real)
      requires Intact() && imus.bank.outliers <= 2
      modifies this`status, imus.bank, imus.bank.reliable, imus.bank.counter, imus.filters.filters
      modifies monitor, monitor.previousMeasurements
      ensures Intact() && mean == Fused(imus.Value())
      ensures imus.Value()
           == Next(old(imus.Value()), Query(Corrected(inputs.imu, gravityCalibration, movementAxis), inputs.unset))
      ensures monitor.history == old(monitor.history) + [SnapshotOf(inputs.imu, gravityCalibration)]
      ensures status == if imus.bank.critical then CriticalFailure else old(status)
    {
      hide Next, Fused, SnapshotOf, Corrected;
      hide SensorBank.Valid, ImuArray.Valid, ImuArray.Value, VibrationMonitor.Valid, DeadReckoner.Valid;
      var raw, moving := CorrectGravity(inputs.imu);
      mean := imus.DetectAndFilter(moving, inputs.unset);
      if imus.bank.critical {
        status := CriticalFailure;
      }
      StoreMeasurement(raw);
    }

    /** A query with at least two reliable IMUs. */
    method QueryReliable(inputs: Inputs)
      requires Valid() && imus.bank.outliers <= 2
      modifies this`status, this`acceleration, imus.bank, imus.bank.reliable, imus.bank.counter, imus.filters.filters
      modifies monitor, monitor.previousMeasurements, reckoner.Parts()
      ensures Valid()
      ensures imus.Value()
           == Next(old(imus.Value()), Query(Corrected(inputs.imu, gravityCalibration, movementAxis), inputs.unset))
      ensures acceleration == DataPoint(inputs.micros % WORD, Fused(imus.Value()))
      ensures reckoner.Value() == Reckon(old(reckoner.Value()), acceleration)
      ensures monitor.history == old(monitor.history) + [SnapshotOf(inputs.imu, gravityCalibration)]
      ensures status == if imus.bank.critical then CriticalFailure else old(status)
    {
      hide Next, Fused, Reckon, SnapshotOf, Corrected;
      hide Intact, ImuArray.Value, DeadReckoner.Value;
      var mean := Sense(inputs);
      Integrate(inputs.micros % WORD, mean);
    }

    /** Raises, before it has changed anything, when fewer than two IMUs are reliable. */
    method QueryImus(inputs: Inputs) returns (raised: bool)
      requires Valid()
      modifies this`status, this`acceleration, imus.bank, imus.bank.reliable, imus.bank.counter, imus.filters.filters
      modifies monitor, monitor.previousMeasurements, reckoner.Parts()
      ensures Valid()
      ensures raised <==> old(imus.bank.outliers) > 2
      ensures TryNext(old(imus.Value()), Query(Corrected(inputs.imu, gravityCalibration, movementAxis), inputs.unset))
           == if raised then Raised else Running(imus.Value())
      ensures forall u: Snapshot :: AboveGravity(inputs.imu, gravityCalibration, u) ==>
        && (raised <==> TryNext(old(imus.Value()), Query(u[movementAxis], inputs.unset)) == Raised)
        && (!raised ==> imus.Value() == Next(old(imus.Value()), Query(u[movementAxis], inputs.unset)))
        && (!raised ==> monitor.history == old(monitor.history) + [u])
      ensures raised ==>
        && imus.Value() == old(imus.Value()) && acceleration == old(acceleration) && status == old(status)
        && reckoner.Value() == old(reckoner.Value()) && monitor.history == old(monitor.history)
      ensures !raised ==>
        && acceleration == DataPoint(inputs.micros % WORD, Fused(imus.Value()))
        && reckoner.Value() == Reckon(old(reckoner.Value()), acceleration)
        && monitor.history == old(monitor.history) + [SnapshotOf(inputs.imu, gravityCalibration)]
        && status == if imus.bank.critical then CriticalFailure else old(status)
    {
      hide Next, Fused, Reckon, SnapshotOf, Corrected, AboveGravity;
      hide SensorBank.Valid, VibrationMonitor.Valid, DeadReckoner.Valid, DeadReckoner.Value;
      forall u: Snapshot | AboveGravity(inputs.imu, gravityCalibration, u)
        ensures u == SnapshotOf(inputs.imu, gravityCalibration)
        ensures u[movementAxis] == Corrected(inputs.imu, gravityCalibration, movementAxis)
      {
        CorrectedAboveGravity(inputs.imu, gravityCalibration, u, movementAxis);
      }
      raised := imus.bank.outliers > 2;
      if !raised {
        QueryReliable(inputs);
      }
    }

    /** The displacement of the average encoder. */
    method AverageEncoders(data: Counters)
      modifies this`encoderDisplacement
      ensures encoderDisplacement == EncoderDistance(data)
    {
      var sum := 0;
      for i := 0 to NUM_SENSORS
        invariant sum == CounterSum(data[..i]) % WORD
      {
        assert data[..i + 1][..i] == data[..i];
        sum := (sum + data[i]) % WORD;
      }
      assert data[..NUM_SENSORS] == data;
      encoderDisplacement := (sum / NUM_SENSORS) as real * WHEEL_CIRCUMFERENCE;
    }

    method DetectEncoders(inputs: Inputs)
      requires encoders.Valid() && encoders.outliers <= 2
      modifies encoders, encoders.reliable, encoders.counter
      ensures encoders.Valid() && encoders.Value() == EncoderStep(old(encoders.Value()), inputs.encoders)
    {
      hide Step, ReliableSorted, EncoderFences, EncoderMedian, Flagged;
      var readings := new nat[NUM_SENSORS](i requires 0 <= i < NUM_SENSORS => inputs.encoders[i]);
      assert readings[..] == inputs.encoders;
      encoders.WheelEncoderOutlierDetection(readings, inputs.unsetCounter);
    }

    /** Raises, with only the displacement stored, when fewer than two encoders are reliable. */
    method QueryWheelEncoders(inputs: Inputs) returns (raised: bool)
      requires Valid()
      modifies this`status, this`encoderDisplacement, encoders, encoders.reliable, encoders.counter
      ensures Valid() && encoderDisplacement == EncoderDistance(inputs.encoders)
      ensures var d := inputs.encoders;
        encoderDisplacement == ((d[0] + d[1] + d[2] + d[3]) % 0x1_0000_0000 / 4) as real * 0.314159265359
      ensures raised <==> old(encoders.outliers) > 2
      ensures raised ==> encoders.Value() == old(encoders.Value()) && status == old(status)
      ensures !raised ==>
        && encoders.Value() == EncoderStep(old(encoders.Value()), inputs.encoders)
        && status == if encoders.critical then CriticalFailure else old(status)
    {
      hide EncoderStep, EncoderDistance, SensorBank.Valid, ImuArray.Valid, VibrationMonitor.Valid, DeadReckoner.Valid;
      AverageEncoders(inputs.encoders);
      DistanceOfFour(inputs.encoders);
      raised := encoders.outliers > 2;
      if !raised {
        DetectEncoders(inputs);
        if encoders.critical {
          status := CriticalFailure;
        }
      }
    }

    /** A disagreement of encoders and IMUs is written to the published record only. */
    method CompareEncoderImu()
      modifies this`published
      ensures var gap := encoderDisplacement - reckoner.Value().displacement.value;
        published == if gap > 2.0 || gap < -2.0 then old(published).(status := CriticalFailure) else old(published)
    {
      if Abs(encoderDisplacement - reckoner.displacement.point.value) > IMU_ENCODER_MAX_ERROR {
        published := published.(status := CriticalFailure);
      }
    }

    /** Sets the timestamps of the three data points, and nothing else. */
    method InitialiseTimestamps(now: nat)
      requires Intact()
      modifies this`acceleration, reckoner.velocity, reckoner.displacement
      ensures Intact() && acceleration == DataPoint(now % WORD, old(acceleration.value))
      ensures var k := old(reckoner.Value());
        reckoner.Value() == k.(velocity := DataPoint(now % WORD, k.velocity.value),
                               displacement := DataPoint(now % WORD, k.displacement.value))
    {
      acceleration := DataPoint(now % WORD, acceleration.value);
      reckoner.velocity.point := DataPoint(now % WORD, reckoner.velocity.point.value);
      reckoner.displacement.point := DataPoint(now % WORD, reckoner.displacement.point.value);
    }

    /** What the module publishes. */
    ghost function Publication(): PodData.Navigation
      reads this, reckoner.Parts()
    {
      var v := reckoner.Value().velocity.value;
      PodData.Navigation(status, reckoner.Value().displacement.value, v, acceleration.value,
                         EmergencyBrakingDistance(v), BrakingDistance(v))
    }

    /** The record `n` holds status, motion, v^2 / 48 and 1.2 times that. */
    ghost predicate PublishedFields(n: PodData.Navigation)
      reads this`status, this`acceleration, reckoner.velocity, reckoner.displacement
    {
      && n.status == status && n.acceleration == acceleration.value
      && n.velocity == reckoner.velocity.point.value && n.displacement == reckoner.displacement.point.value
      && 48.0 * n.emergencyBrakingDistance == n.velocity * n.velocity
      && 40.0 * n.brakingDistance == n.velocity * n.velocity
    }

    method UpdateData()
      modifies this`published
      ensures published == Publication() && PublishedFields(published)
    {
      var v := reckoner.velocity.point.value;
      published := PodData.Navigation(status, reckoner.displacement.point.value, v, acceleration.value,
                                      EmergencyBrakingDistance(v), BrakingDistance(v));
    }

    /** The rest of a pass: encoders, their comparison with the IMUs, publication. */
    method FinishPass(inputs: Inputs) returns (raised: bool)
      requires Valid()
      modifies this`status, this`encoderDisplacement, this`published, encoders, encoders.reliable, encoders.counter
      ensures Valid()
      ensures raised <==> old(encoders.outliers) > 2
      ensures status == if encoders.critical then CriticalFailure else old(status)
      ensures raised ==> published == old(published) && encoders.Value() == old(encoders.Value())
      ensures !raised ==>
        && encoders.Value() == EncoderStep(old(encoders.Value()), inputs.encoders)
        && encoderDisplacement == EncoderDistance(inputs.encoders)
        && published == Publication() && PublishedFields(published)
    {
      hide EncoderStep, EncoderDistance, Publication, PublishedFields;
      raised := QueryWheelEncoders(inputs);
      if !raised {
        CompareEncoderImu();
        UpdateData();
      }
    }

    /** One pass: IMUs, encoders, their comparison, publication. A critical failure of a
        detector is published and stays; one found by the comparison is overwritten. */
    method Navigate(inputs: Inputs) returns (raised: bool)
      requires Valid()
      modifies this`status, this`acceleration, this`encoderDisplacement, this`published
      modifies imus.bank, imus.bank.reliable, imus.bank.counter, imus.filters.filters
      modifies encoders, encoders.reliable, encoders.counter, monitor, monitor.previousMeasurements, reckoner.Parts()
      ensures Valid()
      ensures raised <==> old(imus.bank.outliers) > 2 || old(encoders.outliers) > 2
      ensures old(imus.bank.outliers) > 2 ==>
        imus.Value() == old(imus.Value()) && acceleration == old(acceleration) && status == old(status)
        && reckoner.Value() == old(reckoner.Value()) && monitor.history == old(monitor.history)
      ensures old(imus.bank.outliers) <= 2 ==>
        && imus.Value()
           == Next(old(imus.Value()), Query(Corrected(inputs.imu, gravityCalibration, movementAxis), inputs.unset))
        && acceleration == DataPoint(inputs.micros % WORD, Fused(imus.Value()))
        && reckoner.Value() == Reckon(old(reckoner.Value()), acceleration)
        && monitor.history == old(monitor.history) + [SnapshotOf(inputs.imu, gravityCalibration)]
      ensures old(imus.bank.outliers) <= 2 ==>
        forall u: Snapshot :: AboveGravity(inputs.imu, gravityCalibration, u) ==>
          && imus.Value() == Next(old(imus.Value()), Query(u[movementAxis], inputs.unset))
          && monitor.history == old(monitor.history) + [u]
      ensures status == if imus.bank.critical || encoders.critical then CriticalFailure else old(status)
      ensures raised ==> published == old(published) && encoders.Value() == old(encoders.Value())
      ensures !raised ==>
        && encoders.Value() == EncoderStep(old(encoders.Value()), inputs.encoders)
        && encoderDisplacement == EncoderDistance(inputs.encoders)
        && published == Publication()
      ensures !raised ==> PublishedFields(published)
    {
      hide Next, Fused, Reckon, SnapshotOf, Corrected, EncoderStep, EncoderDistance, AboveGravity, PublishedFields;
      hide Fusion.Valid, Detector.Valid;
      hide SensorBank.Valid, ImuArray.Valid, ImuArray.Value, VibrationMonitor.Valid;
      hide DeadReckoner.Valid, DeadReckoner.Value, Publication;
      raised := QueryImus(inputs);
      if !raised {
        raised := FinishPass(inputs);
      }
    }

    /** Stores the means and variances of one IMU. */
    method StoreOne(i: nat, means: seq<real>, variances: seq<real>)
      requires imus.Valid() && i < NUM_SENSORS && |means| == |variances| == NUM_TRACKERS
      requires forall p :: 0 <= p < NUM_TRACKERS ==> variances[p] >= 0.0
      modifies this`gravityCalibration, imus.filters.filters
      ensures imus.Valid() && gravityCalibration == old(gravityCalibration)[i := means[3 * i..3 * i + 3]]
      ensures imus.Value() == old(imus.Value()).(
        noise := old(imus.Value().noise)[i := variances[3 * i] + variances[3 * i + 1] + variances[3 * i + 2]])
    {
      gravityCalibration := gravityCalibration[i := means[3 * i..3 * i + 3]];
      var totalVariance := 0.0;
      for j := 0 to NUM_AXES
        invariant totalVariance >= 0.0
        invariant j == 0 ==> totalVariance == 0.0
        invariant j == 1 ==> totalVariance == variances[3 * i]
        invariant j == 2 ==> totalVariance == variances[3 * i] + variances[3 * i + 1]
        invariant j == 3 ==> totalVariance == variances[3 * i] + variances[3 * i + 1] + variances[3 * i + 2]
      {
        totalVariance := totalVariance + variances[3 * i + j];
      }
      imus.UpdateMeasurementCovariance(i, totalVariance);
    }

    /** Stores the means and variances of a successful calibration. */
    method StoreCalibration(means: seq<real>, variances: seq<real>)
      requires imus.Valid() && |means| == |variances| == NUM_TRACKERS
      requires forall p :: 0 <= p < NUM_TRACKERS ==> variances[p] >= 0.0
      modifies this`gravityCalibration, imus.filters.filters
      ensures imus.Valid() && imus.Value() == old(imus.Value()).(noise := imus.Value().noise)
      ensures forall i :: 0 <= i < NUM_SENSORS ==> gravityCalibration[i] == means[3 * i..3 * i + 3]
      ensures forall i :: 0 <= i < NUM_SENSORS ==>
        imus.Value().noise[i] == variances[3 * i] + variances[3 * i + 1] + variances[3 * i + 2]
    {
      hide ImuArray.Valid, ImuArray.Value;
      for i := 0 to NUM_SENSORS
        invariant imus.Valid() && imus.Value() == old(imus.Value()).(noise := imus.Value().noise)
        invariant forall k :: 0 <= k < i ==> gravityCalibration[k] == means[3 * k..3 * k + 3]
        invariant forall k :: 0 <= k < i ==>
          imus.Value().noise[k] == variances[3 * k] + variances[3 * k + 1] + variances[3 * k + 2]
      {
        StoreOne(i, means, variances);
      }
    }

    /** `imu` is what successive queries return. The first attempt whose own samples
        are quiet enough is used; with none in three the module fails. The status is
        overwritten in either case. */
    method CalibrateGravity(imu: nat -> ImuData) returns (ghost a: nat)
      requires Intact()
      modifies this`status, this`gravityCalibration, this`published, imus.filters.filters
      ensures Intact() && published == Publication()
      ensures FirstGood(imu, a) && imus.Value() == old(imus.Value()).(noise := imus.Value().noise)
      ensures status in {ReadyStatus, CriticalFailure}
      ensures status == ReadyStatus <==> AttemptGood(imu, 0) || AttemptGood(imu, 1) || AttemptGood(imu, 2)
      ensures a < MAX_CALIBRATION_ATTEMPTS ==>
        status == ReadyStatus && MeasuredBy(imu, a, gravityCalibration, imus.Value().noise)
      ensures a < MAX_CALIBRATION_ATTEMPTS ==>
        && (forall i, axis :: 0 <= i < NUM_SENSORS && 0 <= axis < NUM_AXES ==>
              gravityCalibration[i][axis] == Mean(OwnSamples(imu, a, i, axis)))
        && forall i :: 0 <= i < NUM_SENSORS ==>
             imus.Value().noise[i] == Variance(OwnSamples(imu, a, i, 0)) + Variance(OwnSamples(imu, a, i, 1))
                                      + Variance(OwnSamples(imu, a, i, 2))
      ensures a == MAX_CALIBRATION_ATTEMPTS ==>
        && status == CriticalFailure
        && gravityCalibration == old(gravityCalibration) && imus.Value() == old(imus.Value())
    {
      hide AttemptGood, AttemptSamples, OwnSamples, Mean, Variance, AttemptMean, AttemptNoise;
      hide SensorBank.Valid, SensorBank.Value, ImuArray.Valid, ImuArray.Value, VibrationMonitor.Valid;
      hide DeadReckoner.Valid, DeadReckoner.Value;
      var successful, means, variances;
      successful, means, variances, a := Calibrate(imu);
      if successful {
        forall p | 0 <= p < NUM_TRACKERS ensures variances[p] >= 0.0 {
          VarianceNonNegative(AttemptSamples(imu, a, p));
        }
        StoreCalibration(means, variances);
        StoredAreMeasured(imu, a, means, variances);
        MeasuredComponents(imu, a, gravityCalibration, imus.Value().noise);
        status := ReadyStatus;
      } else {
        status := CriticalFailure;
      }
      UpdateData();
    }
  }
}
