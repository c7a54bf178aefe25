/** The vibration check: a ring of the last snapshots, and the variance of the
    axes across the direction of travel. */
module Vibration {
  import opened OutlierDetection
  import opened Statistics

  const NUM_AXES := 3
  const PREVIOUS_MEASUREMENTS := 1000

  type Axis = a: nat | a < NUM_AXES

  const ZERO_READINGS: Readings := [0.0, 0.0, 0.0, 0.0]

  /** Gravity-corrected readings of one query, by axis and then by IMU. */
  type Snapshot = s: seq<Readings> | |s| == NUM_AXES witness [ZERO_READINGS, ZERO_READINGS, ZERO_READINGS]

  /** Readings of one axis over a list of snapshots, oldest first. */
  function AxisReadings(h: seq<Snapshot>, axis: nat): seq<real>
    requires axis < NUM_AXES
  {
    if h == [] then [] else AxisReadings(h[..|h| - 1], axis) + h[|h| - 1][axis]
  }

  lemma AxisReadingsAppend(h: seq<Snapshot>, s: Snapshot, axis: nat)
    requires axis < NUM_AXES
    ensures AxisReadings(h + [s], axis) == AxisReadings(h, axis) + s[axis]
  {
    assert (h + [s])[..|h|] == h;
  }

  /** The readings come snapshot by snapshot, IMU by IMU. */
  lemma {:induction false} AxisReadingsAt(h: seq<Snapshot>, axis: nat, k: nat, i: nat)
    requires axis < NUM_AXES && k < |h| && i < NUM_SENSORS
    ensures |AxisReadings(h, axis)| == 4 * |h| && AxisReadings(h, axis)[4 * k + i] == h[k][axis][i]
  {
    var init := h[..|h| - 1];
    if k < |init| {
      AxisReadingsAt(init, axis, k, i);
    } else {
      AxisReadingsLength(init, axis);
    }
  }

  lemma {:induction false} AxisReadingsLength(h: seq<Snapshot>, axis: nat)
    requires axis < NUM_AXES
    ensures |AxisReadings(h, axis)| == 4 * |h|
  {
    if h != [] {
      AxisReadingsLength(h[..|h| - 1], axis);
    }
  }

  /** Index of the `i`-th oldest entry of a full ring. */
  function Slot(current: nat, i: nat): (r: nat)
    ensures r < PREVIOUS_MEASUREMENTS
  {
    (current + i) % PREVIOUS_MEASUREMENTS
  }

  /** The ring holds the history `h`: its beginning until full, then its last snapshots in rotation. */
  ghost predicate Holds(ring: seq<Snapshot>, current: nat, filled: bool, h: seq<Snapshot>) {
    && |ring| == PREVIOUS_MEASUREMENTS && current < PREVIOUS_MEASUREMENTS
    && (!filled ==> |h| == current && forall i :: 0 <= i < current ==> ring[i] == h[i])
    && (filled ==> |h| >= PREVIOUS_MEASUREMENTS && forall i :: 0 <= i < PREVIOUS_MEASUREMENTS ==>
          ring[Slot(current, i)] == Last(h, PREVIOUS_MEASUREMENTS)[i])
  }

  lemma SlotMoves(current: nat, i: nat)
    requires current < PREVIOUS_MEASUREMENTS && i < PREVIOUS_MEASUREMENTS
    ensures var next := if current + 1 == PREVIOUS_MEASUREMENTS then 0 else current + 1;
      if i < PREVIOUS_MEASUREMENTS - 1 then Slot(next, i) == Slot(current, i + 1) != current
      else Slot(next, i) == current
  {
  }

  lemma LastMoves(h: seq<Snapshot>, raw: Snapshot, i: nat)
    requires |h| >= PREVIOUS_MEASUREMENTS && i < PREVIOUS_MEASUREMENTS
    ensures Last(h + [raw], PREVIOUS_MEASUREMENTS)[i]
         == if i < PREVIOUS_MEASUREMENTS - 1 then Last(h, PREVIOUS_MEASUREMENTS)[i + 1] else raw
  {
  }

  lemma FullRingStep(ring: seq<Snapshot>, current: nat, h: seq<Snapshot>, raw: Snapshot)
    requires Holds(ring, current, true, h)
    ensures var next := if current + 1 == PREVIOUS_MEASUREMENTS then 0 else current + 1;
      Holds(ring[current := raw], next, true, h + [raw])
  {
    hide Slot;
    var next := if current + 1 == PREVIOUS_MEASUREMENTS then 0 else current + 1;
    forall i | 0 <= i < PREVIOUS_MEASUREMENTS
      ensures ring[current := raw][Slot(next, i)] == Last(h + [raw], PREVIOUS_MEASUREMENTS)[i]
    {
      SlotMoves(current, i);
      LastMoves(h, raw, i);
    }
  }

  lemma RingStep(ring: seq<Snapshot>, current: nat, filled: bool, h: seq<Snapshot>, raw: Snapshot)
    requires Holds(ring, current, filled, h)
    ensures var next := current + 1;
      Holds(ring[current := raw], if next == PREVIOUS_MEASUREMENTS then 0 else next,
            filled || next == PREVIOUS_MEASUREMENTS, h + [raw])
  {
    if filled {
      FullRingStep(ring, current, h, raw);
    }
  }

  class VibrationMonitor {
    const movementAxis: nat
    const previousMeasurements: array<Snapshot>
    var currentMeasurements: nat
    var previousFilled: bool
    ghost var history: seq<Snapshot>

    ghost predicate Valid()
      reads this, previousMeasurements
    {
      movementAxis < NUM_AXES && Holds(previousMeasurements[..], currentMeasurements, previousFilled, history)
    }

    constructor (axis: nat)
      requires axis < NUM_AXES
      ensures Valid() && movementAxis == axis && history == [] && fresh(previousMeasurements)
    {
      movementAxis := axis;
      previousMeasurements := new Snapshot[PREVIOUS_MEASUREMENTS](_ => [ZERO_READINGS, ZERO_READINGS, ZERO_READINGS]);
      currentMeasurements, previousFilled, history := 0, false, [];
    }

    method Store(raw: Snapshot)
      requires Valid()
      modifies this`currentMeasurements, this`previousFilled, this`history, previousMeasurements
      ensures Valid() && history == old(history) + [raw]
      ensures previousFilled <==> old(previousFilled) || |history| == 1000
    {
      RingStep(previousMeasurements[..], currentMeasurements, previousFilled, history, raw);
      previousMeasurements[currentMeasurements] := raw;
      currentMeasurements := currentMeasurements + 1;
      if currentMeasurements == PREVIOUS_MEASUREMENTS {
        currentMeasurements := 0;
        previousFilled := true;
      }
      history := history + [raw];
      assert previousMeasurements[..] == old(previousMeasurements[..])[old(currentMeasurements) := raw];
    }

    /** One statistics object per axis has seen that axis of the snapshots `h`; the movement axis is skipped. */
    ghost predicate Tracks(online: seq<OnlineStatistics>, h: seq<Snapshot>)
      reads online
    {
      && |online| == NUM_AXES
      && (forall x, y :: 0 <= x < y < NUM_AXES ==> online[x] != online[y])
      && forall x :: 0 <= x < NUM_AXES ==>
           online[x].Valid() && online[x].seen == (if x == movementAxis then [] else AxisReadings(h, x))
    }

    method AddSnapshot(online: seq<OnlineStatistics>, rawData: Snapshot, ghost h: seq<Snapshot>)
      requires Tracks(online, h)
      modifies online
      ensures Tracks(online, h + [rawData])
    {
      for axis := 0 to NUM_AXES
        invariant forall x :: 0 <= x < NUM_AXES ==> online[x].Valid()
        invariant forall x :: 0 <= x < NUM_AXES ==>
          online[x].seen == old(online[x].seen) + (if x < axis && x != movementAxis then rawData[x] else [])
      {
        if axis != movementAxis {
          AddReadings(online[axis], rawData[axis]);
        }
      }
      forall x | 0 <= x < NUM_AXES ensures AxisReadings(h + [rawData], x) == AxisReadings(h, x) + rawData[x] {
        AxisReadingsAppend(h, rawData, x);
      }
    }

    /** The `i`-th entry of the walk around a full ring: the `i`-th oldest snapshot it holds. */
    method Entry(i: nat) returns (rawData: Snapshot)
      requires Valid() && previousFilled && i < PREVIOUS_MEASUREMENTS
      ensures rawData == Last(history, PREVIOUS_MEASUREMENTS)[i]
    {
      rawData := previousMeasurements[(currentMeasurements + i) % PREVIOUS_MEASUREMENTS];
      assert rawData == previousMeasurements[..][Slot(currentMeasurements, i)];
    }

    /** The walk around the ring. */
    method Walk(online: seq<OnlineStatistics>)
      requires Valid() && previousFilled && Tracks(online, [])
      modifies online
      ensures Tracks(online, Last(history, PREVIOUS_MEASUREMENTS))
    {
      ghost var h := Last(history, PREVIOUS_MEASUREMENTS);
      assert |h| == PREVIOUS_MEASUREMENTS;
      hide Last, Tracks;
      assert h[..0] == [] && h[..PREVIOUS_MEASUREMENTS] == h;
      for i := 0 to PREVIOUS_MEASUREMENTS
        invariant Tracks(online, h[..i])
      {
        var rawData := Entry(i);
        AddSnapshot(online, rawData, h[..i]);
        assert h[..i + 1] == h[..i] + [rawData];
      }
    }

    /** The variances that the check compares with those of the calibration. */
    method CheckVibration() returns (variances: seq<real>)
      requires Valid() && previousFilled
      ensures |variances| == NUM_AXES
      ensures forall axis :: 0 <= axis < NUM_AXES ==>
        variances[axis] == (if axis == movementAxis then 0.0
                            else Variance(AxisReadings(Last(history, 1000), axis)))
    {
      VarianceOfNone();
      hide Variance, Mean, Deviations, Sum, Last;
      var o0 := new OnlineStatistics();
      var o1 := new OnlineStatistics();
      var o2 := new OnlineStatistics();
      var online := [o0, o1, o2];
      Walk(online);
      variances := [online[0].variance, online[1].variance, online[2].variance];
    }
  }

  lemma VarianceOfNone()
    ensures Variance([]) == 0.0
  {
  }

  /** The four readings of one axis. */
  method AddReadings(o: OnlineStatistics, readings: Readings)
    requires o.Valid()
    modifies o
    ensures o.Valid() && o.seen == old(o.seen) + readings
  {
    for imu := 0 to NUM_SENSORS
      invariant o.Valid() && o.seen == old(o.seen) + readings[..imu]
    {
      o.Update(readings[imu]);
    }
  }
}
