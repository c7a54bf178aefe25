# Flight software of the pod: verified model

This project models the flight software of a Hyperloop pod and proves what its
parts promise over all inputs, all data streams, and all interleavings of its
threads. Reals stand in for `float`; sensor readings, telemetry, and clocks are
arbitrary streams passed as parameters.

| files | what they model |
|---|---|
| `Statistics.dfy` | running (Welford) and rolling-window statistics, against batch definitions |
| `Kalman.dfy` | the 1x1 Kalman filter of an IMU, and the scalar template |
| `OutlierDetection.dfy`, `Medians.dfy`, `DetectorRuns.dfy`, `SensorBank.dfy` | outlier rejection among four sensors: what it detects and replaces, its bookkeeping over runs, and the code that does it |
| `Fusion.dfy`, `QueryLaws.dfy`, `FilterBank.dfy`, `ImuArray.dfy`, `FaultLimits.dfy`, `FaultRuns.dfy`, `FaultyReckoning.dfy` | filtering and averaging of the IMUs; what one query does, told from the readings; tolerance of one faulty IMU, its exact limits, runs that reach them, and what it means for dead reckoning |
| `EncoderFaults.dfy` | the wheel encoders: what wrap-around of the quartile sums does to the same detector |
| `Vibration.dfy`, `Calibration.dfy`, `Navigation.dfy`, `NavigationMain.dfy` | the navigation module and the thread that drives it |
| `Motion.dfy`, `Braking.dfy` | integrators, simulated trajectory, kinematics, braking zone and stopping |
| `PodData.dfy`, `Transitions.dfy`, `StateMachine.dfy` | shared records, guards, and the pod's state machine |
| `Interlock.dfy` | the state machine thread and the GPIO thread, interleaved |
| `Propulsion.dfy` | the rpm regulation loop with controllers that follow their target |
| `Barrier.dfy` | the reusable barrier |
| `Quaternions.dfy` | in-place quaternion multiplication |
| `Arithmetic.dfy` | nonlinear facts about reals used by the rest |

Conventions:

- Code that updates state is a class with methods. Each method's `ensures` ties
  the new state to a function (`Step`, `Next`, `Correct`, `Reckon`, `RecordOne`),
  and the results over whole runs are lemmas about those functions. What each
  function computes is stated beside it in raw data and numbers, without the
  function: as an equation on the fields, or as an exact condition on the readings.
- The members of the program's navigation object are grouped into components
  (`ImuArray` with its `SensorBank` and `FilterBank`, another `SensorBank` for the
  encoders, `VibrationMonitor`, `DeadReckoner`). A bank's
  `critical` says whether that detector has set the module's status to critical
  failure; `Navigation` copies it into `status` in the same call. The two copies
  of the detection code, for IMUs and for encoders, share `Record`.
- Statistics of vectors are componentwise in the program, so the four vector
  trackers of the calibration are twelve scalar ones.
- Timestamps are unsigned 32-bit counters of microseconds and are subtracted
  with wrap-around; encoder sums wrap at 32 bits; rpm steps use exact rounding,
  halves away from zero.
- `size_t` has 64 bits. Where it has 32, the average of a negative total of rpms
  comes out 2^30 higher; the rpms of the closed loop are not negative (`RpmBounded`).
- The clock is the time of day, in unsigned 64-bit microseconds since the program
  started. It may be set back, and differences then wrap.
- The two threads of the interlock and the threads at the barrier are step
  machines over values; every interleaving of their lock-protected accesses is a
  sequence of steps.

What the proofs found:

- Once two IMUs have been dropped, the two fences coincide, and the remaining two
  are both flagged as soon as they differ (`FlaggedWithTwo`).
- Exactly one faulty IMU is tolerated (`ToleratesExactlyOne`): whatever the state
  in which all IMUs are still reliable, and whatever two healthy ones report in
  agreement, two faulty ones have a reading that is not flagged and steers the
  fused acceleration to any value (`TwoFaultsSteer`).
- One faulty IMU can move the fused value by as much as the bound says
  (`BoundAttained`).
- Three healthy IMUs are safe from a fourth exactly when each agrees with another
  healthy one within 6 m/s^2 (`CloseExactly`).
- With two IMUs left the thread ends in an exception exactly after they have
  differed in 1001 queries in a row; the module has by then long been in critical
  failure (`RaisedExactly`). From start-up, it ends so exactly after all IMUs but
  one have each been flagged in 1001 queries in a row (`RaisedFromStart`).
- The encoders do not tolerate one fault: their quartile sums wrap at 32 bits, and
  one encoder stuck at a large counter gets all four flagged, which after 1001
  calls ends the thread (`OneEncoderRaises`). The healthy ones are safe exactly
  while the faulty counter wraps with none of theirs (`EncoderSafeExactly`).
- A clock set back by however little throws the simulated trajectory ahead by
  nearly 2^64 microseconds (`ClockSetBack`).
- A disagreement between encoders and IMUs never reaches a published record that
  outlives the pass: `updateData` overwrites it (`CompareEncoderImu`, `Navigate`).
- The high-power interlock does not hold from every start: if a clearing pass of
  the GPIO thread is still under way, and its flag not yet raised, when PreReady
  is published, a braking state can be published with a relay high. The exact
  condition is `Armed`, and every start-up has a schedule that violates it
  (`SafeExactlyWhenArmed`, `StartUpReachesHazard`).
- The GPIO thread does not initialise the state it compares with. If that happens
  to be PreBraking or FailurePreBraking, and the thread is held up until that state
  is published, the master switch stays high however long the pod waits there; from
  every other start high power goes off within ten accesses and the brakes follow
  (`ProgressExactly`, `BrakingFollows`).
- The barrier synchronises exactly when at most `required` threads use it
  (`SafeExactlyUpToRequired`).

## Model

| member | source | states |
|---|---|---|
| Statistics.Welford | src/utils/math/statistics.hpp:61-70 | Welford's step: appending a reading adds the product of its deviations from old and new mean to the sum of squared deviations about the new mean |
| Statistics.Roll | src/utils/math/statistics.hpp:112-122 | the rolling step: exchanging the oldest reading changes the sum of squared deviations of the window by the program's correction term |
| Statistics.VarianceNonNegative | src/utils/math/statistics.hpp:24-26 | a sample variance is never negative |
| Statistics.OrderIndependent | src/utils/math/statistics.hpp:61-70 | mean and variance do not depend on the order of the readings |
| Statistics.VarianceBySums | src/utils/math/statistics.hpp:61-70 | n (n - 1) times the sample variance is n times the sum of the squares less the square of the sum |
| Statistics.OnlineStatistics.Update | src/utils/math/statistics.hpp:61-70 | after every update sum, mean, sum of squared deviations and variance equal the batch values of all readings so far, and are not negative where squares are summed |
| Statistics.RollingStatistics.Update | src/utils/math/statistics.hpp:103-123 | after every update sum, mean and variance equal those of the last min(n, W) readings computed from scratch |
| Kalman.StepInvariant | src/utils/math/kalman_multivariate.cpp:86-103 | one step has a gain in (0, 1], leaves the covariance in [0, R], and moves the estimate towards the measurement without passing it |
| Kalman.PrecisionWeighted | src/utils/math/kalman_multivariate.cpp:86-103 | a correction makes the estimate the mean of old estimate and measurement weighted by their precisions, (x' - x) R = (z - x') (P + Q), and the covariance P' with P' (P + Q + R) = (P + Q) R |
| Kalman.BestFit | src/utils/math/kalman_multivariate.cpp:98-103 | among all values the corrected estimate alone minimises (y - x)^2 R + (y - z)^2 (P + Q) |
| Kalman.Run | src/utils/math/kalman_multivariate.cpp:105-109 | over any run the covariance stays non-negative, and at most R from the first correction on |
| Kalman.EstimateInHull | src/utils/math/kalman_multivariate.cpp:98-109 | the estimate never leaves the hull of its start and the measurements |
| Kalman.CovarianceConverges | src/utils/math/kalman_multivariate.cpp:86-109 | runs with different initial covariance approach each other by the factor (R/(Q+R))^2 per step |
| Kalman.EstimateConverges | src/utils/math/kalman_multivariate.cpp:98-109 | runs with different initial estimates approach each other by the factor R/(Q+R) per step |
| Kalman.KalmanFilter.Setup | src/navigation/kalman_filter.cpp:22-39 | initial estimate 0, covariance 0.5, process noise 0.02, measurement noise 0.001, and the 1x1 models |
| Kalman.KalmanFilter.Filter | src/navigation/kalman_filter.cpp:53-61 | predict and correct with the program's matrices make the analysed step; in fields: the equations of the precision-weighted mean and of its covariance, and the least misfit to old estimate and measurement |
| Kalman.ScalarKalman.Filter | src/utils/math/kalman.hpp:93-103 | the scalar template makes the same step, from any covariances, with the same equations in its fields and the gain that they need |
| OutlierDetection.FlaggedExactly | src/navigation/navigation.cpp:345-369 | with three or four reliable sensors a reading is flagged iff it lies more than 6 above every other reliable reading or more than 6 below every one |
| OutlierDetection.FlaggedWithTwo | src/navigation/navigation.cpp:355-367 | with two reliable sensors both are flagged iff their readings differ |
| OutlierDetection.AtMostTwoFlagged | src/navigation/navigation.cpp:404-427 | no call flags three IMUs |
| OutlierDetection.MedianWithin | src/navigation/navigation.cpp:358-361 | if all reliable readings but one lie in an interval, so does the median that replaces outliers |
| Medians.MedianIsTrimmedMean | src/navigation/navigation.cpp:358-361 | the median of three or four reliable readings is the mean of those left without one smallest and one largest: (n - 2) times it is the sum of the reliable readings less these two |
| DetectorRuns.CounterIsStreak | src/navigation/navigation.cpp:408-427 | a reliable sensor's counter is the length of its current streak of flagged calls, at most 1000 |
| DetectorRuns.DroppedAtLimit | src/navigation/navigation.cpp:416-419 | a sensor is unreliable iff some streak of its has reached 1001 calls |
| DetectorRuns.NeverRegained | src/navigation/navigation.cpp:416-419 | reliability, once lost, is never regained |
| DetectorRuns.CriticalIffTwoDropped | src/navigation/navigation.cpp:420-423 | the outlier count is the number of unreliable sensors, and the detector is critical iff at least two have been dropped |
| SensorBanks.SensorBank.CalculateImuQuartiles | src/navigation/navigation.cpp:345-369 | the quartiles of the sorted reliable readings; the middle one is the trimmed mean of the reliable readings with three or four of them, and unset with two |
| SensorBanks.SensorBank.CalculateEncoderQuartiles | src/navigation/navigation.cpp:371-395 | the same for counters, with 32-bit wrap-around of the sums |
| SensorBanks.EncoderMedianIsTrimmed | src/navigation/navigation.cpp:384-387 | the same for counters: with c the sum of the reliable counters less one smallest and one largest, c mod 2^32 halved and rounded down with four of them, c with three |
| SensorBanks.SensorBank.Record | src/navigation/navigation.cpp:410-426 | one pass of the detection loop: counter, drop-out, outlier count and critical status of one sensor |
| SensorBanks.RecordAll | src/navigation/navigation.cpp:408-427 | the loop's four passes amount to one step of the detector, judged against the state before the call |
| SensorBanks.SensorBank.ImuOutlierDetection | src/navigation/navigation.cpp:397-428 | the bookkeeping makes one step; with three or four reliable IMUs exactly those more than 6 above or below all other reliable ones are overwritten, with the trimmed mean of the reliable readings; with two, both become the unset slot iff they differ |
| SensorBanks.SensorBank.WheelEncoderOutlierDetection | src/navigation/navigation.cpp:430-462 | the bookkeeping makes one step; exactly the flagged counters are overwritten, with the trimmed mean of wrapped sums rounded down |
| EncoderFaults.JudgedAlike | src/navigation/navigation.cpp:380-387 | if no two counters wrap when added, the encoders' fences are the IMUs' fences |
| EncoderFaults.CrossedFences | src/navigation/navigation.cpp:381-386 | if the wrapped upper quartile is below the lower one, every reading exceeds the limits |
| EncoderFaults.EncoderSafeExactly | src/navigation/navigation.cpp:430-462 | with three healthy encoders below 2^31 and close to one another, none of them is flagged iff the fourth counter wraps with none of theirs |
| EncoderFaults.EncoderTolerance | src/navigation/navigation.cpp:430-462 | over whole runs with at most one faulty encoder and nothing that wraps: no exception, no healthy encoder flagged, never critical |
| EncoderFaults.OneEncoderRaises | src/navigation/navigation.cpp:430-462 | one encoder stuck at the largest counter takes all four out in 1001 calls while the others agree exactly, and the next call raises |
| Fusion.HealthyNeverFlagged | src/navigation/navigation.cpp:397-428 | with at most one faulty IMU, a healthy one that agrees with another healthy one within 6 is never flagged |
| QueryLaws.VerdictLaw | src/navigation/navigation.cpp:397-428 | one query: an IMU is counted iff it reads more than 6 above or below all other reliable ones, or with two left differs from the other; it is dropped at its 1001st time in a row, and else starts anew |
| QueryLaws.FilterLaw | src/navigation/navigation.cpp:236-247 | one query: the filter of an IMU that stays reliable weighs in its reading, or in place of a counted one the trimmed mean; any other filter is left alone |
| QueryLaws.FusedLaw | src/navigation/navigation.cpp:241-256 | the fused acceleration times the number of reliable IMUs is the sum of their estimates |
| Fusion.ToleranceKept | src/navigation/navigation.cpp:236-247 | one query keeps healthy IMUs reliable with counters at 0 and every estimate in its hull |
| Fusion.FusedBounded | src/navigation/navigation.cpp:241-256 | the mean of such estimates leaves the healthy range by at most 1.5, and by nothing once the faulty IMU is out |
| Fusion.OneFaultTolerance | src/navigation/navigation.cpp:216-257 | over whole runs with at most one arbitrary IMU: no exception, no healthy IMU flagged, at most one outlier, never critical, fused acceleration within 1.5 of the healthy range with 0 |
| FaultLimits.CloseExactly | src/navigation/navigation.cpp:397-428 | whatever the fourth reports, none of three healthy IMUs is flagged, iff each agrees with another of them within 6 |
| FaultLimits.TwoFaultsSteer | src/navigation/navigation.cpp:236-256 | from any state with all IMUs reliable, with whatever noise the calibration measured, two faulty IMUs have a reading that is not flagged and makes the fused acceleration any target, for any agreeing healthy readings |
| FaultLimits.ToleratesExactlyOne | src/navigation/navigation.cpp:216-257 | for every set of faulty IMUs and every healthy range: all runs go on with fused acceleration within 1.5 of the range iff the set has at most one member |
| FaultLimits.RaisedExactly | src/navigation/navigation.cpp:355-367 | once two IMUs are left the module is critical, and the run ends in the exception iff before its last query the two have differed in 1001 queries in a row |
| FaultLimits.CountersBounded | src/navigation/navigation.cpp:414-426 | over any run of queries a reliable IMU was flagged at most 1000 times in a row, and the detector is critical iff two are out |
| FaultRuns.BoundAttained | src/navigation/navigation.cpp:241-256 | the bound is attained: an IMU that is off by up to 6 for long enough takes the fused value as near as wanted to a quarter of that off the healthy value |
| FaultRuns.LastPairReached | src/navigation/navigation.cpp:414-426 | 1001 queries in which two IMUs are far off take both out and make the detector critical |
| FaultRuns.RaisedFromStart | src/navigation/navigation.cpp:353-367 | a run from start-up ends in the exception iff before its last query all IMUs but one have each been flagged in 1001 queries in a row |
| FilterBanks.FilterBank.FilterReliable | src/navigation/navigation.cpp:241-247 | exactly the reliable IMUs' filters make one step on the clean readings; the result is the mean of their estimates |
| ImuArrays.ImuArray.DetectAndFilter | src/navigation/navigation.cpp:236-247 | detection and filtering of one query make the analysed step of the fusion and return its fused value |
| FaultyReckoning.OneFaultReckoning | src/navigation/navigation.cpp:216-261 | over whole runs one faulty IMU moves reckoned velocity and displacement by no more than 1.5 m/s^2 of acceleration does |
| Vibration.RingStep | src/navigation/navigation.cpp:248-253 | storing a snapshot keeps the ring equal to the beginning of the history, or in rotation to its last 1000 snapshots |
| Vibration.AxisReadingsAt | src/navigation/navigation.cpp:277-293 | the readings that the check uses are those of every snapshot and every IMU on that axis, in order |
| Vibration.VibrationMonitor.Store | src/navigation/navigation.cpp:248-253 | the history grows by the snapshot, and the ring counts as filled from the 1000th on |
| Vibration.VibrationMonitor.CheckVibration | src/navigation/navigation.cpp:277-293 | each non-movement axis gets the batch sample variance of the 4000 readings of the last 1000 snapshots, oldest first |
| Calibration.Isolated | src/navigation/navigation.cpp:117-146 | after an attempt the trackers hold the batch mean and variance of that attempt's own samples |
| Calibration.Calibrate | src/navigation/navigation.cpp:114-148 | attempts stop at the first whose twelve variances are all under the limit, or after three, and report that attempt's statistics |
| Navigation.Navigation.constructor | src/navigation/navigation.cpp:11-42 | fresh detectors, filters at 0, nothing integrated, status Init, and that record published |
| Navigation.Navigation.CalibrateGravity | src/navigation/navigation.cpp:106-197 | from any status: Ready iff one of three attempts has all twelve variances of its own 10000 samples under 0.05, with the componentwise means of the first such attempt as gravity and its summed variances as filter noise; else critical failure with everything kept |
| Navigation.Navigation.QueryImus | src/navigation/navigation.cpp:216-261 | with fewer than two reliable IMUs an exception before anything changes; else, if u is what the IMUs read above the gravity, one step of the fusion on u along the movement axis, its mean as acceleration, both integrators advanced, and the snapshot u of all axes recorded |
| Navigation.Navigation.QueryWheelEncoders | src/navigation/navigation.cpp:199-214 | the displacement is the sum of the four counters mod 2^32, divided by 4 and rounded down, times the circumference; with fewer than two reliable encoders an exception, else one step of the encoder detector and the status that follows it |
| Navigation.Navigation.CompareEncoderImu | src/navigation/navigation.cpp:263-275 | a disagreement of more than 2 m puts critical failure into the published record, not into the status |
| Navigation.Navigation.InitialiseTimestamps | src/navigation/navigation.cpp:498-510 | timestamps change and no value does |
| Navigation.Navigation.UpdateData | src/navigation/navigation.cpp:464-474 | the published record, field by field: status, motion, emergency braking distance v^2 / 48 and braking distance v^2 / 40 |
| Navigation.Navigation.Navigate | src/navigation/navigation.cpp:489-496 | one pass: fusion on what the IMUs read above the gravity, integrators, snapshot, encoder detector; the published fields are those of the new state, so a detector's critical status is published and stays and that of the comparison does not |
| NavigationMain.HistoryGrows | src/navigation/main.cpp:40-53 | one more query extends the analysed run of the fusion and of the integrators by one step |
| NavigationMain.PublishedInOrder | src/navigation/main.cpp:28-29 | whenever the thread reads the published state, it sees the states in the order of their ordinals |
| NavigationMain.QueriesAreHealthy | src/navigation/navigation.cpp:224-233 | if in all driving polls the IMUs read u above the means of the calibration samples, the queries made are u |
| NavigationMain.Main.Step | src/navigation/main.cpp:28-60 | one pass on the module itself: it stays where the analysed runs of its queries and encoder reports lead; a query is made exactly in Accelerating, Cruising, PreBraking, NominalBraking, FailurePreBraking and FailureBraking; the first calibrating poll calibrates, and leaves gravity and noise of its first good attempt or a critical status; the thread ends in the three final states or in an exception |
| NavigationMain.Main.Loop | src/navigation/main.cpp:28-61 | over any polls from any moment: the invariant, calibration and timestamps at most once each, one query per driving poll, all corrected by the gravity of the one calibration, which is made on the first calibrating poll |
| NavigationMain.Main.OneFaultPublished | src/navigation/main.cpp:40-53 | over everything the thread has done with at most one faulty IMU: no IMU failure, and published acceleration, velocity and displacement bounded by the healthy range |
| NavigationMain.Main.RunFromStart | src/navigation/main.cpp:13-61 | the whole run of the thread from start-up: with at most one faulty IMU and at most one faulty encoder, and no counters that wrap, it never raises, fails only if no calibration attempt is good, and publishes motion bounded by the healthy range |
| NavigationMain.Main.RunCalibrated | src/navigation/main.cpp:13-61 | the same told from what the sensors report: if an attempt of the first calibrating poll is good and all driving polls read u above the means of that attempt's samples, u healthy for all IMUs but at most one, the published motion is bounded by the range of u, and without encoder faults the module neither raises nor fails |
| Motion.Integrator.Update | src/utils/math/integrator.hpp:49-67 | the output grows by the trapezoid since the previous point, over the 32-bit difference of the times in millionths of a second; by nothing on the first |
| Motion.DeadReckoner.Update | src/navigation/navigation.cpp:256-260 | acceleration and then the velocity just written pass through the two integrators |
| Motion.ElapsedIsTrueGap | src/utils/math/integrator.hpp:58-59 | the wrapped difference of 32-bit timestamps is the true gap while it is below 2^32 |
| Motion.ReckoningBounds | src/utils/math/integrator.hpp:49-67 | for any sample times, bounds on the acceleration bound reckoned velocity and displacement by the kinematics of the bounds |
| Motion.FakeTrajectory.GetTrajectory | src/sensors/fake_trajectory.cpp:79-117 | per state: rest, or motion at that state's constant acceleration over the unsigned 64-bit difference of the times in millionths of a second |
| Motion.PollingIndependent | src/sensors/fake_trajectory.cpp:111-116 | in one moving state, with a clock that is not set back, the trajectory depends on the total elapsed time only |
| Motion.ClockSetBack | src/utils/timer.cpp:10-15 | a time of day set back makes the elapsed time nearly 2^64 microseconds |
| Motion.DeadReckoningExact | src/navigation/navigation.cpp:256-260 | in a constant-acceleration phase the chained integrators end with the trajectory's velocity and displacement, however often either was polled |
| Braking.PhasesKeepShort | src/sensors/fake_trajectory.cpp:106-115 | braking at 20 or more, at changing rates, keeps a pod that would stop short of a limit short of it |
| Braking.StoppingBound | src/state_machine/transitions.cpp:119-127 | if displacement and braking distance together grow by at most the buffer from the last poll outside the braking zone to the onset, the pod never reaches the end of the run |
| Braking.RunStopsInTime | src/state_machine/state.cpp:139-259 | over whole runs of the state machine on a pod that moves as each published state says, emergencies included: if what one poll gap at full acceleration and the coasting before braking can add fits in the buffer, the pod is short of the end of the run at every time |
| Braking.RideFollowsStateMachine | src/state_machine/main.cpp:22-28 | the states of that ride are those of the state machine on the same polls |
| Braking.CoastingWithinBuffer | src/sensors/fake_trajectory.cpp:101-105 | coasting stays within the buffer if it covers at most 20 m at the polled speed |
| Braking.ShortExactly | src/navigation/navigation.cpp:69-74 | at a constant rate the pod stays short of a limit at all times iff position plus v^2 / (2 rate) is short of it |
| StateMachine.Main.CheckTransition | src/state_machine/state.cpp:33-307 | the cascade of guards of every state chooses the next state of the transition table; from a state up to the braking that is a failure state iff the stop command or one of six critical failures is seen |
| StateMachine.Main.Enter | src/state_machine/state.hpp:47-53 | entering publishes the state; entering Off stops the system and publishes nothing |
| StateMachine.Main.Poll | src/state_machine/main.cpp:22-28 | one pass of the loop: current and published state agree while the system runs |
| StateMachine.OrdinalRises | src/data/data.hpp:154-169 | every transition strictly raises the state's ordinal |
| StateMachine.AtMostElevenTransitions | src/state_machine/main.cpp:22-31 | any run makes at most 11 transitions, whatever the data stream |
| StateMachine.FailureIffEmergency | src/state_machine/state.cpp:33-307 | a run visits a failure state iff some poll in a state up to the braking saw the stop command or a critical failure of navigation, telemetry, motors, brakes, batteries or sensors, and then never visits Finished |
| StateMachine.FailureEntered | src/state_machine/state.cpp:33-277 | which polls enter which failure state, exactly |
| StateMachine.OffExactly | src/state_machine/state.cpp:234-296 | the system is off exactly after a poll in a final state that saw the shutdown command |
| StateMachine.NominalExactly | src/state_machine/state.cpp:33-225 | progress and evidence at once: for each of the eight steps of a nominal run, the state behind it is visited iff polls in order saw, in raw data, what the steps up to it need, and none until then an emergency |
| StateMachine.LaunchNeedsEvidence | src/state_machine/state.cpp:33-135 | Accelerating is reached only after, in order and each in the state that waits for it, polls that saw every module at Init or Ready, the calibrate command, every module at Ready, high power on, and the launch command, and no poll until then an emergency |
| StateMachine.StopNeedsEvidence | src/state_machine/state.cpp:213-277 | Finished, and after a launch FailureStopped, is entered only from a braking state on a poll that saw velocity <= 0 |
| StateMachine.BrakingNeedsEvidence | src/state_machine/state.cpp:139-203 | NominalBraking is reached only after the first driven poll with displacement + braking distance + 20 >= 1250 and then a poll in PreBraking that saw high power off, both without emergency |
| StateMachine.CruisingEntered | src/state_machine/state.cpp:145-161 | cruising starts exactly on a poll without emergency that saw 100 m/s or more outside the braking zone |
| Interlock.InvKept | src/sensors/gpio_manager.cpp:29-100 | every step of either thread keeps: between Ready and the end a raised flag means all pins low and no setting under way |
| Interlock.LockedForGood | src/sensors/gpio_manager.cpp:52-101 | once high power is off in a braking state, nothing that can still happen raises a pin |
| Interlock.HighPowerInterlock | src/sensors/gpio_manager.cpp:29-101 | under every interleaving from start-up that is armed when PreReady is published, a published braking state means every relay and the master switch are low and stay low |
| Interlock.SafeExactlyWhenArmed | src/sensors/gpio_manager.cpp:29-50 | when PreReady has just been published every continuation is safe iff the flag is up or no clearing is under way |
| Interlock.StartUpReachesHazard | src/data/data.hpp:94 | from every start-up, where the flag is false, some schedule publishes a braking state with a pin high |
| Interlock.HighPowerGoesOff | src/sensors/gpio_manager.cpp:29-100 | progress: while the published state is one of those up to the calibration, or one of those from the launch on other than NominalBraking, ten accesses of the GPIO thread, scheduled among any others, put all pins low and the flag up |
| Interlock.ProgressExactly | src/sensors/gpio_manager.cpp:52-99 | in every run that waits for high power to be off it goes off iff the uninitialised previous state does not happen to be PreBraking or FailurePreBraking |
| Interlock.BrakingFollows | src/state_machine/state.cpp:192-277 | once PreBraking or FailurePreBraking is published, ten accesses of the GPIO thread and then four of the state machine, whatever the data and the rest of the schedule, have a braking state published |
| Interlock.NextPollBrakes | src/state_machine/state.cpp:192-258 | with the flag up, the next poll and its publication engage the brakes: nominally from PreBraking if that poll saw no emergency |
| Interlock.HighPowerComesOn | src/sensors/gpio_manager.cpp:41-89 | PreReady, left published for ten accesses of the GPIO thread, ends with all pins high and the flag down, and so it stays while PreReady or Ready is published |
| Propulsion.RoundsToNearest | src/propulsion/rpm_regulator.cpp:19-30 | rounding goes to the nearest integer and halves go away from zero |
| Propulsion.OptimalLaw | src/propulsion/rpm_regulator.cpp:19-24 | the optimal rpm is 0.32047 v^2 + 297.72578 v + 1024.30824 to the nearest integer; 1024 at rest, 34002 at 100 m/s |
| Propulsion.TargetLaw | src/propulsion/rpm_regulator.cpp:11-30 | below the optimal rpm the target is a tenth of it higher, above a twentieth lower, to the nearest integer and never negative; at it the rpm is kept |
| Propulsion.InBandExactlyFrom | src/propulsion/rpm_regulator.cpp:11-30 | the iterated regulator is in the band [opt - round(0.05 opt), opt + round(0.1 opt)] iff at least `StepsToBand` steps have been made |
| Propulsion.StepsBound | src/propulsion/rpm_regulator.cpp:26-30 | that number is the distance from the band divided by the step size, rounded up |
| Propulsion.LoopRegulates | src/propulsion/state_processor.cpp:75-100 | over any calls, four controllers with any rpms at the start keep the average that regulating their average gives, one step per due call, and from the first due call all run at it |
| Propulsion.ConstantOptimalConverges | src/propulsion/rpm_regulator.cpp:11-30 | regulation at a constant optimal rpm is in its band exactly from the `StepsToBand`-th step on |
| Propulsion.ClosedLoopConverges | src/propulsion/state_processor.cpp:89-98 | at constant velocity the average rpm of the four controllers is in the band exactly from the `StepsToBand`-th due call on, for ever |
| Propulsion.RegulationBounded | src/propulsion/rpm_regulator.cpp:11-30 | over any sequence of optimal rpms up to a top, the rpm never exceeds its start or the top band, and never goes negative |
| Propulsion.RpmBounded | src/propulsion/state_processor.cpp:89-98 | with velocities in [0, V] the average rpm of the closed loop never exceeds its start or the top of the band at V, and never goes negative |
| Propulsion.StateProcessor.CalculateAverageRpm | src/propulsion/state_processor.cpp:118-127 | the sum of the four rpms divided by four and rounded down |
| Propulsion.StateProcessor.Accelerate | src/propulsion/state_processor.cpp:75-100 | measured rpms are published; the call makes one step of the closed loop: if more than 5 ms have passed all controllers follow the regulated average, else none changes |
| Propulsion.FakeController.SendTargetVelocity | src/propulsion/fake_controller.cpp:52-57 | the simulated controller runs at its target at once |
| Barrier.GenerationKept | src/utils/concurrent/barrier.cpp:15-26 | every step keeps all threads in one generation, with the counter equal to the sleepers |
| Barrier.BarrierSynchronises | src/utils/concurrent/barrier.cpp:15-26 | over every interleaving no thread finishes its k-th wait before every thread has begun its k-th; the counter equals the sleepers and is below `required` |
| Barrier.NeverAllBlocked | src/utils/concurrent/barrier.cpp:15-26 | with exactly `required` threads some thread can always move |
| Barrier.WokenReturns | src/utils/concurrent/barrier.cpp:15-26 | over every interleaving of at most `required` threads a woken thread can return, and has then finished every wait it has begun |
| Barrier.GenerationCompletes | src/utils/concurrent/barrier.cpp:15-26 | with exactly `required` threads every run can go on until all are outside and have finished equally many waits, among them all those they had begun |
| Barrier.SafeExactlyUpToRequired | src/utils/concurrent/barrier.cpp:15-26 | the barrier synchronises iff at most `required` threads use it |
| Barrier.Barrier.Wait | src/utils/concurrent/barrier.cpp:15-26 | the critical section of a wait makes the protocol's arrival step and says whether the caller sleeps |
| Quaternions.AddsLeft | src/utils/math/quaternion.hpp:204-221 | the product is additive in its left factor |
| Quaternions.AddsRight | src/utils/math/quaternion.hpp:204-221 | and in its right factor |
| Quaternions.Scales | src/utils/math/quaternion.hpp:204-221 | and homogeneous in both |
| Quaternions.HamiltonRelations | src/utils/math/quaternion.hpp:204-221 | on the basis it satisfies i^2 = j^2 = k^2 = ijk = -1 and does not commute |
| Quaternions.ProductAssociative | src/utils/math/quaternion.hpp:204-221 | the product is associative |
| Quaternions.FoldMultipliesNorms | src/utils/math/quaternion.hpp:204-221 | multiplying through any sequence multiplies the squared norms |
| Quaternions.Quaternion.MultiplyBy | src/utils/math/quaternion.hpp:204-221 | in-place multiplication gives the Hamilton product of the old values, also of an object with itself |

## Left out

- Device and network I/O, telemetry, logging, configuration files, and the debugging tools.
- IEEE rounding of `float` and `double`; reals are used throughout.
- Navigation.Navigation.CalibrateGravity: the calibration variances used for the vibration log message are left out, as they mix IMU and axis indices and start uninitialised.
- Vibration.VibrationMonitor.CheckVibration: the ratio to the calibration variances only decides a log message and is left out; the filled flag is taken to start false, though the program does not initialise it.
- Navigation.Navigation.UpdateData: the direct writes of a critical status by the quartile functions are left out, since at that point the status is already critical.
- Navigation.Navigation.Navigate: the uncertainty estimates that a pass updates once the module has published more than 1000 times are left out; nothing but a log message reads them.
- Propulsion.StateProcessor.CalculateAverageRpm: rounds a negative total down only where `size_t` has 64 bits, as the conventions say.
- NavigationMain.Main.Step: takes the published states in the order of their ordinals, as `PublishedInOrder` proves of the state machine; other writers of that record are not part of this model.
- The brake-model distance of `getBrakingDistance`, which is not published.
- Statistics.RollingStatistics.Update: windows of size 0 and 1 are excluded; there the program reads an empty queue or divides zero by zero.
- Interlock.HighPowerInterlock: assumes that only the GPIO thread writes the flag; other threads that write whole stale sensor records are left out, and the GPIO thread is modelled on values rather than as a class, since its steps interleave with another thread's.
- Barrier.BarrierSynchronises: assumes that there are no spurious wake-ups and that `required` is positive.
- Propulsion.StateProcessor.Accelerate: the limits of 32-bit integers are not modelled for rpms; `RpmBounded` keeps them far from the limits for velocities of the run.
- The propulsion state handler, the brakes, the battery and pressure managers, and the CAN controllers.
- Failure injection in the simulated controllers and sensors.
