# HeaterMeter GrillPid control core in Dafny

This project models the control core of HeaterMeter (`arduino/heatermeter/grillpid.cpp`).
HeaterMeter is a fan-driven temperature controller for a charcoal cooker. The model covers:

- **Per-probe sampling** (`TempProbe`). Every sub-period a probe takes 4^B raw ADC samples and adds
  their scaled sum to a window accumulator. A railed sample, a zero, or an outlier more than 2^(6+B)
  from the running mean poisons the window. At the end of a period the window's mean becomes the
  temperature.
- **Alarm hysteresis** (`ProbeAlarm`). Each probe has a low and a high alarm. Each arms one degree
  on the safe side and rings on crossing its threshold. Within `updateStatus` and
  `setThreshold`, ringing latches until the lid opens or that threshold is set (`calcTemp` also
  silences all alarms when a probe has no temperature; that link is not modelled).
- **The PID law** (`GrillPid::calcPidOutput`). It has a bias, a proportional, an integral and a
  derivative term. The integral has an anti-windup gate. The output is an integer percentage
  clamped to [0, 100].
- **The outputs.**
  - Fan speed scaling, with the fan-only-at-maximum flag.
  - Long-pulse PWM below the minimum fan speed, with a phase counter that wraps at `PERIOD_SCALE`.
  - Fan inversion.
  - A boost start: the pin is driven fully on for one sub-period after a start from standstill.
  - The servo position, interpolated between its limits (`mappct`).
- **The setters.**
- **The `doWork` cadence.**
  - A throttle on 16-bit elapsed milliseconds.
  - A sub-period counter that starts at 0x80.
  - The lid-open / auto-resume state machine.

The AVR target's integer widths are written out in module `CInt`. `int` and `unsigned int` are 16
bits, `unsigned char` is 8 bits, integer division truncates toward zero, and a float-to-int cast
truncates.

The build-time constants from `grillpid.h` form the `Control.Params` datatype:
`TEMP_OVERSAMPLE_BITS`, `TEMP_MEASURE_PERIOD`, `TEMP_AVG_COUNT`, `LIDOPEN_MIN_AUTORESUME` and the
probe-type codes. `grillpid.h` itself is not part of this model.

These become inputs:

- `analogRead` results (sample sequences);
- `millis()` (`now`);
- `isLidOpen()` (a boolean);
- the floating-point temperature curve (a function `nat -> Option<real>`);
- the pit's smoothed temperature and `(int)PidOutputAvg`.

These become modelled outputs:

- the fan pin level (`fanPin`: the last `analogWrite` duty, or 255 for `digitalWrite(HIGH)`);
- the servo pulse width in microseconds (`servoOutput`).

Files:

- `cint.dfy`: the C integer semantics.
- `alarm.dfy`: `ProbeAlarm`, as a class over its three two-element arrays and as functions on
  values.
- `probe.dfy`: window bookkeeping functions and lemmas, and the `TempProbe` class.
- `control.dfy`: the control laws as functions of the controller state, with their lemmas.
- `grillpid.dfy`: the `GrillPid` class. Its methods update its fields in place and are proved
  against the functions in `control.dfy` and `probe.dfy`.

Behaviour of the code worth stating plainly:

- `setThreshold(idx, 0)` clears that side's flags and keeps the stored threshold.
- In units 'A', a window whose mean is 0 yields temperature 0: `calcTemp` checks the units before
  it checks the mean.
- `isLidOpen()` is only called here (it is defined in `grillpid.h`), so the model takes it as an
  input.
- `TEMP_AVG_COUNT` must be at most 255: the period counter is an `unsigned char`, and a larger count
  is never reached, so no period would ever complete (`Control.CounterNeverReachesWideCount`).

## Model

| member | source | states |
|---|---|---|
| CInt.U16 | arduino/heatermeter/grillpid.cpp:452 | conversion to `unsigned int`: the result is in [0, 2^16), equals the input when it is in range, and is congruent to it modulo 2^16 |
| CInt.U8 | arduino/heatermeter/grillpid.cpp:341 | conversion to `unsigned char`: the result is in [0, 2^8), equals the input in range, and is congruent to it modulo 2^8 |
| CInt.I16 | arduino/heatermeter/grillpid.cpp:513 | 16-bit `int` arithmetic: the result is in [-2^15, 2^15), equals the input in range, and is congruent to it modulo 2^16 |
| CInt.CDiv | arduino/heatermeter/grillpid.cpp:513 | C division: it agrees with floor division for non-negative operands, is non-negative when the operands' signs agree and non-positive when they differ |
| CInt.CDivMagnitude | arduino/heatermeter/grillpid.cpp:513 | the truncated quotient's magnitude is the floor of the ratio of the magnitudes |
| CInt.Trunc | arduino/heatermeter/grillpid.cpp:302 | the float-to-int cast: rounds down for non-negative values and up for negative ones, within one of the value |
| CInt.Constrain | arduino/heatermeter/grillpid.cpp:303 | `constrain`: the result lies in [lo, hi], is x when x is in range, lo below it and hi above it |
| Alarm.LowStep | arduino/heatermeter/grillpid.cpp:54-60 | the low side arms when value ≥ low + 1 and rings only if it was already armed and value < low; the threshold is kept |
| Alarm.HighStep | arduino/heatermeter/grillpid.cpp:64-70 | the high side arms when value < high − 1 and rings only if it was already armed and value ≥ high |
| Alarm.StatusAfter | arduino/heatermeter/grillpid.cpp:50-74 | each flag after `updateStatus` as an iff over the inputs: a disabled side is untouched, the lid open clears both ringing flags, arming is never undone, ringing ⇒ armed is preserved |
| Alarm.ThresholdSet | arduino/heatermeter/grillpid.cpp:86-94 | setting a threshold clears only that side's flags; 0 keeps the old threshold, any other value replaces it |
| Alarm.LowRingCause | arduino/heatermeter/grillpid.cpp:54-60 | a low alarm rings after a run only if it rang before, or a reading fell below the threshold after the side was armed (before the run or by an earlier reading ≥ threshold + 1) |
| Alarm.HighRingCause | arduino/heatermeter/grillpid.cpp:64-70 | the same for the high alarm: a reading ≥ threshold after arming, before the run or by a reading < threshold − 1 |
| Alarm.RingingLatches | arduino/heatermeter/grillpid.cpp:50-74 | once ringing, an alarm keeps ringing through any run of lid-closed readings |
| Alarm.ProbeAlarm.constructor | arduino/heatermeter/grillpid.cpp:50-94 | a fresh alarm has zero thresholds and no flags set |
| Alarm.ProbeAlarm.UpdateStatus | arduino/heatermeter/grillpid.cpp:50-74 | the arrays after the call hold `StatusAfter` of their old contents |
| Alarm.ProbeAlarm.SetThreshold | arduino/heatermeter/grillpid.cpp:86-94 | the arrays after the call hold `ThresholdSet` of their old contents |
| Alarm.ProbeAlarm.SetLow | arduino/heatermeter/grillpid.cpp:81-84 | `setThreshold` on the low side |
| Alarm.ProbeAlarm.SetHigh | arduino/heatermeter/grillpid.cpp:76-79 | `setThreshold` on the high side |
| Probe.DiffMax | arduino/heatermeter/grillpid.cpp:119 | `DIFFMAX(x, y, d)` in 16-bit unsigned arithmetic: a reading equal to the mean always passes |
| Probe.DiffMaxIsWindow | arduino/heatermeter/grillpid.cpp:119 | with operands small enough, the wrapping `DIFFMAX(x, y, d)` holds exactly when y − d ≤ x ≤ y + d |
| Probe.DiffMaxWrapsForLargeMean | arduino/heatermeter/grillpid.cpp:119 | without that bound the wrapping test accepts a reading far from the mean |
| Probe.AddAdc | arduino/heatermeter/grillpid.cpp:120-140 | `addAdcValue` counts every call; a 0 empties the accumulator; the first value is stored verbatim; a poisoned window stays poisoned; values within range keep the accumulator bounded by count · max |
| Probe.AddAdcOutlier | arduino/heatermeter/grillpid.cpp:131-137 | a value outside [mean − 2^(6+B), mean + 2^(6+B)] empties the accumulator; one inside is added to it (unless it is already empty) |
| Probe.RunAdcAppend | arduino/heatermeter/grillpid.cpp:120-140 | folding a concatenation is folding one part after the other |
| Probe.StickyZero | arduino/heatermeter/grillpid.cpp:122-137 | once the accumulator is 0 with a non-zero count it stays 0 for every later value |
| Probe.RejectedWindow | arduino/heatermeter/grillpid.cpp:122-137 | one rejected sub-period anywhere in a window leaves its accumulator at 0 |
| Probe.AddSteady | arduino/heatermeter/grillpid.cpp:120-140 | adding the running mean itself to a window of j copies gives j + 1 copies |
| Probe.SteadyWindow | arduino/heatermeter/grillpid.cpp:120-140 | a window fed one valid value throughout accumulates exactly that many copies of it |
| Probe.SumBounds | arduino/heatermeter/grillpid.cpp:144-156 | the sum of non-railed samples lies between their count and 1022 times their count |
| Probe.ShiftRight | arduino/heatermeter/grillpid.cpp:158 | `x >> B` is the floor of x / 2^B, so never above x |
| Probe.Oversample | arduino/heatermeter/grillpid.cpp:142-160 | the value `readTemp` hands to `addAdcValue`: 0 when any sample is railed, and never above the 16-bit sum of the samples |
| Probe.OversampleRange | arduino/heatermeter/grillpid.cpp:142-160 | `readTemp` hands over 0 exactly when a sample is railed; otherwise the 16-bit sum does not wrap and the value is the sum shifted right by B, at most 1022 · 2^B |
| Probe.Finalize | arduino/heatermeter/grillpid.cpp:162-209 | with no values the estimate is unchanged; otherwise the count restarts and the temperature is the mean in units 'A', none for a zero mean, else the curve's value for the mean |
| Probe.RawRoundTrip | arduino/heatermeter/grillpid.cpp:162-175 | round trip: a window of valid sub-periods that all read x yields temperature x in units 'A' |
| Probe.RejectedWindowHasNoTemperature | arduino/heatermeter/grillpid.cpp:177-209 | outside units 'A', a window with one rejected sub-period yields no temperature |
| Probe.TempProbe.constructor | arduino/heatermeter/grillpid.cpp:96-99 | a fresh probe has an empty window, type 0 and no temperature |
| Probe.TempProbe.SetProbeType | arduino/heatermeter/grillpid.cpp:110-117 | the new type is stored, the window is emptied and the temperature cleared |
| Probe.TempProbe.AddAdcValue | arduino/heatermeter/grillpid.cpp:120-140 | the new window is `AddAdc` of the old one; type and temperature are unchanged; the bound invariant is kept for values in range |
| Probe.TempProbe.ReadTemp | arduino/heatermeter/grillpid.cpp:142-160 | the new window is `AddAdc` of the old one and the oversampled value of the samples; the invariant is kept |
| Probe.TempProbe.CalcTemp | arduino/heatermeter/grillpid.cpp:162-209 | the new window and temperature are `Finalize` of the old ones |
| Control.PeriodScale | arduino/heatermeter/grillpid.cpp:316-317 | `PERIOD_SCALE` is between 1 and 10000 for a valid configuration |
| Control.IntegralActive | arduino/heatermeter/grillpid.cpp:293-294 | the anti-windup gate: closed at zero error; inside (0, 100) open for any nonzero error; at 100 % open only for a negative error, at 0 % only for a positive one |
| Control.PidTerms | arduino/heatermeter/grillpid.cpp:282-299 | B is the bias gain, P the gain times the error, D the gain times (average − current); I advances by gain · error only when the anti-windup gate is open, else it is kept |
| Control.CalcPid | arduino/heatermeter/grillpid.cpp:272-304 | output in [0, 100]; with no pit temperature or the lid open, output 0 and all terms unchanged; the I term changes only through the open gate; otherwise the terms are `PidTerms` and the output is their clamped sum |
| Control.ClampOutput | arduino/heatermeter/grillpid.cpp:302-303 | `constrain((int)control, 0, 100)`: at most 100, 100 from 100.0 up, 0 below 1.0, the integer part in between |
| Control.ClampedTruncIsClampedFloor | arduino/heatermeter/grillpid.cpp:302-303 | truncation and rounding down give the same clamped output for every control value |
| Control.SaturationFreezesIntegral | arduino/heatermeter/grillpid.cpp:288-290 | anti-windup: while the pit is below the setpoint and the other terms keep the output saturated at 100, the integral never grows and the output stays 100 |
| Control.MapPct | arduino/heatermeter/grillpid.cpp:17-18 | `mappct` in 16-bit unsigned arithmetic: 0 % gives A |
| Control.MapPctInRange | arduino/heatermeter/grillpid.cpp:18 | for o ≤ 100 and B − A ≤ 655 the 16-bit interpolation is exact, lies in [A, B], gives A at 0 % and B at 100 % |
| Control.MapPctWrapsWithinDocumentedLimit | arduino/heatermeter/grillpid.cpp:17-18 | the documented limit B − A < 6553 is not enough: at B − A = 1000 full output gives 344, and at 656 it gives 0 |
| Control.FanSpeed | arduino/heatermeter/grillpid.cpp:306-311 | the fan speed is at most the maximum, 0 below full output in fan-only-at-max mode, and the maximum at full output |
| Control.FanSpeedScales | arduino/heatermeter/grillpid.cpp:306-311 | otherwise it is the output percentage of the maximum, rounded down |
| Control.LongPulse | arduino/heatermeter/grillpid.cpp:325-335 | one long-pulse step: the phase stays below `PERIOD_SCALE` and wraps to 0; the fan is on exactly when the phase is below 16-bit(SCALE · speed) / min |
| Control.OnCountFrom | arduino/heatermeter/grillpid.cpp:325-335 | from phase t to the end of the window, the fan runs for max(0, min(⌊SCALE · speed/min⌋, SCALE) − t) periods |
| Control.LongPulseWindow | arduino/heatermeter/grillpid.cpp:318-336 | over one window from phase 0 at a constant speed below the minimum, the fan runs exactly ⌊SCALE · speed/min⌋ of the SCALE periods |
| Control.CommandedSpeed | arduino/heatermeter/grillpid.cpp:318-336 | below the minimum the commanded speed is exactly the minimum or 0; at or above it, the requested speed |
| Control.BlowerDuty | arduino/heatermeter/grillpid.cpp:339-342 | the duty written to the fan pin: 0 for a stopped fan, and 0 for full speed when inverted |
| Control.BlowerDutyScales | arduino/heatermeter/grillpid.cpp:338-341 | the PWM duty is the (possibly inverted) speed as a fraction of 255: 0 at 0 % and 255 at 100 % |
| Control.NextTmr | arduino/heatermeter/grillpid.cpp:318-336 | `_longPwmTmr` stays below `PERIOD_SCALE` and is reset to 0 whenever the speed reaches the minimum |
| Control.WriteDuty | arduino/heatermeter/grillpid.cpp:340-355 | the duty is recorded; a start from standstill drives the pin to 255 and marks the boost; otherwise the pin carries the duty |
| Control.CommitFan | arduino/heatermeter/grillpid.cpp:313-356 | the phase stays below `PERIOD_SCALE` and is 0 at or above the minimum speed; the duty is `BlowerDuty` of the commanded speed; boost on exactly a start from standstill |
| Control.EndBoost | arduino/heatermeter/grillpid.cpp:462-468 | ending a boost restores the last duty on the pin and clears the flag; without a boost nothing changes |
| Control.BoostLastsOneSubPeriod | arduino/heatermeter/grillpid.cpp:344-355 | a boost start is seen on the pin for exactly one sub-period |
| Control.ServoPosition | arduino/heatermeter/grillpid.cpp:358-375 | with min ≤ max the position is min + (max − min) · o / 100 of the (any-max, inverted) percentage o, so within [min, max]; 0 % gives min (max when inverted); full output, or any output with servo-any-max, gives max (min when inverted) |
| Control.DropPercent | arduino/heatermeter/grillpid.cpp:513 | the percentage drop is undefined exactly when the setpoint is 0 |
| Control.DropPercentExact | arduino/heatermeter/grillpid.cpp:513 | for gaps up to 327 degrees the 16-bit drop is the truncated true percentage, at most 100 |
| Control.DropPercentWraps | arduino/heatermeter/grillpid.cpp:513 | beyond that the product overflows; with two's-complement wrap-around a 350-degree drop from 400 reads as −76 % |
| Control.LidOpenTriggers | arduino/heatermeter/grillpid.cpp:513-515 | the lid-open trigger needs a nonzero setpoint and an output average under 90 %; without 16-bit overflow it is exactly "drop percentage ≥ offset and output average < 90" |
| Control.LidStep | arduino/heatermeter/grillpid.cpp:491-518 | reaching the setpoint past the minimum resume time zeroes the countdown and quarters I only the first time; otherwise the integral is kept and a running countdown falls by one period's seconds; from a zero countdown a lid-open event fires exactly when the setpoint was reached and the trigger holds, and otherwise the state is kept |
| Control.LidOpenHoldsOff | arduino/heatermeter/grillpid.cpp:494-511 | after a lid-open event the countdown falls by one period's seconds each period, whatever the pit does, until the minimum resume time has elapsed |
| Control.HoldOff | arduino/heatermeter/grillpid.cpp:494-511 | the hold-off counted from k periods into the event |
| Control.Elapsed | arduino/heatermeter/grillpid.cpp:454 | the 16-bit elapsed time equals the true difference for intervals under 2^16 ms |
| Control.Due | arduino/heatermeter/grillpid.cpp:454-456 | the throttle: with no time elapsed a sub-period is due only when `TEMP_MEASURE_PERIOD / TEMP_AVG_COUNT` is 0 |
| Control.ElapsedAcrossRollover | arduino/heatermeter/grillpid.cpp:454 | wrapping subtraction measures the elapsed time across a 32-bit clock rollover, for intervals under 2^16 ms |
| Control.TickCounter | arduino/heatermeter/grillpid.cpp:477-480 | a period completes exactly when the 8-bit incremented counter reaches `TEMP_AVG_COUNT`, and the counter then restarts at 0 |
| Control.FirstCallCompletesPeriod | arduino/heatermeter/grillpid.cpp:240-241 | the counter starts at 0x80, so the first sub-period completes a period exactly when `TEMP_AVG_COUNT` ≤ 0x81; a larger count makes the first period longer |
| Control.CounterNeverReachesWideCount | arduino/heatermeter/grillpid.cpp:477-478 | a `TEMP_AVG_COUNT` above 255 is never reached by the 8-bit counter, so no period completes |
| Control.PeriodCycle | arduino/heatermeter/grillpid.cpp:477-480 | from counter k, the sub-periods up to `TEMP_AVG_COUNT` are partial except the last, which completes the period |
| Grill.SubPeriodWindow | arduino/heatermeter/grillpid.cpp:472-475 | only internal and analog-thermocouple probes are sampled, and each of them counts one more sub-period; a railed sample empties the window; otherwise the window takes `AddAdc` of the sum shifted right by B |
| Grill.CountOfIsMultiplicity | arduino/heatermeter/grillpid.cpp:262-269 | the count is the multiplicity of the type among the probes' types |
| Grill.PitAsInt | arduino/heatermeter/grillpid.cpp:491 | `(int)` of the pit temperature truncates toward zero |
| Grill.ControlPeriod | arduino/heatermeter/grillpid.cpp:485-519 | manual mode changes nothing; otherwise the output is `CalcPid`'s, in [0, 100]; with no temperature or the lid open it is 0 with B/P/D kept; the first reach zeroes the countdown and quarters I; from a zero countdown below the resume condition the countdown starts (and the reached flag clears) exactly on a lid-open event, else stays 0 |
| Grill.DormantAtMinimumDuration | arduino/heatermeter/grillpid.cpp:416-419 | a resume duration at or below the minimum leaves the detector dormant: from a zero countdown the setpoint is never marked reached |
| Grill.GrillPid.constructor | arduino/heatermeter/grillpid.cpp:240-247 | fields zero, except the period counter (0x80) and the units ('F') |
| Grill.GrillPid.CountOfType | arduino/heatermeter/grillpid.cpp:262-269 | the number of probes of the given type |
| Grill.GrillPid.ResetLidOpenResumeCountdown | arduino/heatermeter/grillpid.cpp:394-398 | the countdown is set to the duration and the reached flag cleared; nothing else changes |
| Grill.GrillPid.SetSetPoint | arduino/heatermeter/grillpid.cpp:400-407 | the new setpoint; reached, manual mode and countdown reset; only the I term is zeroed |
| Grill.GrillPid.SetPidOutput | arduino/heatermeter/grillpid.cpp:409-414 | manual mode at the output clamped to [0, 100]; countdown 0 |
| Grill.GrillPid.SetLidOpenDuration | arduino/heatermeter/grillpid.cpp:416-419 | the duration is the value when above the minimum, and the minimum otherwise |
| Grill.GrillPid.SetPidConstant | arduino/heatermeter/grillpid.cpp:421-427 | the gain is stored; the I term is zeroed exactly when the I gain is the one set, and otherwise the terms are unchanged |
| Grill.GrillPid.SetUnits | arduino/heatermeter/grillpid.cpp:545-556 | only 'A', 'C', 'F' and 'R' are accepted; anything else leaves the units unchanged |
| Grill.GrillPid.CalcPidOutput | arduino/heatermeter/grillpid.cpp:272-304 | the output and the terms after the call are `CalcPid` of the old ones; nothing else changes |
| Grill.GrillPid.UpdateTerms | arduino/heatermeter/grillpid.cpp:287-299 | the four terms become `PidTerms` of the gains and the old terms |
| Grill.GrillPid.CommitFanOutput | arduino/heatermeter/grillpid.cpp:313-356 | the fan state becomes `CommitFan` of the old one; nothing else changes |
| Grill.GrillPid.LongPulseSpeed | arduino/heatermeter/grillpid.cpp:318-336 | the speed returned is `CommandedSpeed` and the phase `NextTmr`; nothing else changes |
| Grill.GrillPid.WriteBlowerDuty | arduino/heatermeter/grillpid.cpp:340-355 | the fan state becomes `WriteDuty` of the old one |
| Grill.GrillPid.CommitServoOutput | arduino/heatermeter/grillpid.cpp:358-375 | the servo pulse is ten times `ServoPosition` of the output; nothing else changes |
| Grill.GrillPid.SampleProbes | arduino/heatermeter/grillpid.cpp:472-475 | every probe's window becomes `SubPeriodWindow` of its old one; types and temperatures are unchanged |
| Grill.GrillPid.FinalizeProbes | arduino/heatermeter/grillpid.cpp:482-483 | every probe's estimate becomes `Finalize` of its old one |
| Grill.GrillPid.ControlStep | arduino/heatermeter/grillpid.cpp:485-519 | the output, terms, countdown and reached flag become `ControlPeriod` of the old ones; nothing else changes |
| Grill.GrillPid.LidOpenStep | arduino/heatermeter/grillpid.cpp:491-518 | countdown, reached flag and I term become `LidStep` of the old ones; the other terms are unchanged |
| Grill.GrillPid.SubPeriod | arduino/heatermeter/grillpid.cpp:455-480 | the timestamp is taken, the boost ends, every probe is sampled and the counter advances by `TickCounter` |
| Grill.GrillPid.EndFanBoost | arduino/heatermeter/grillpid.cpp:462-468 | the fan state becomes `EndBoost` of the old one |
| Grill.GrillPid.AdvancePeriodCounter | arduino/heatermeter/grillpid.cpp:477-480 | the counter and the result follow `TickCounter` |
| Grill.GrillPid.FinishPeriod | arduino/heatermeter/grillpid.cpp:482-523 | probes finalised, then `ControlPeriod`, `CommitFan` and the servo position applied to the result |
| Grill.GrillPid.DoWork | arduino/heatermeter/grillpid.cpp:452-524 | before a sub-period has elapsed nothing changes; otherwise each probe's estimate, the counter, the fan state, the PID state and the servo pulse are those of the composed functions, and the result says whether a period completed |

## Left out

- The timer interrupt that drives the servo pulse, `init`, and `uSecToTicks`: these are hardware
  timing. `servoOutput` is the pulse width in microseconds, before the tick conversion.
- `analogRead`, `millis()`, `analogWrite` and `digitalWrite`: the first two are inputs. The writes
  are modelled by `fanPin` and `servoOutput`.
- `millis()` is read twice in `doWork`. The model reads one `now` for both.
- The floating-point temperature math in `calcTemp` (thermocouple scale, thermistor resistance,
  Steinhart–Hart curve, the 'R' units case) and `setTemperatureC`: these are floating point. They
  are the `convert` parameter, which maps a mean ADC value to a temperature or to none.
- `calcExpMovingAverage`, `TemperatureAvg` and `PidOutputAvg`: these are floating point. The pit's
  average and `(int)PidOutputAvg` are inputs to `DoWork`.
- The tail of `calcTemp` (the average update, `Alarms.updateStatus` and `silenceAll`): the alarm
  logic is modelled on its own in `Alarm`, but the link from a probe's temperature to its alarm is
  not.
- `isLidOpen()`, `getLowEnabled()` and `getHighEnabled()` are defined in `grillpid.h`, which is not
  part of this model. They are boolean inputs.
- `status`, `pidStatus`, `loadConfig` and `isAnyFoodProbeActive`: these are reporting and
  configuration I/O.
- The configuration setters for fan and servo limits and output flags: these are in `grillpid.h`.
  The configuration is fixed at construction (`fanConfig`, `servoConfig`).
- The compile-time switches `GRILLPID_CALC_TEMP`, `GRILLPID_SERVO_ENABLED` and
  `GRILLPID_FAN_BOOST_ENABLED` are assumed enabled.
- Probe.TempProbe.AddAdcValue: the accumulator is an unbounded `nat`. Its width in `grillpid.h` is
  not part of this model. The invariant bounds it by count · 1022 · 2^B.
- Control.ClampOutput: the float-to-`int` cast is modelled as truncation of a real number. A control
  sum outside the 16-bit range, which is undefined in C, is not modelled.
- Grill.ControlPeriod: a NaN pit temperature cast to `int` is undefined in C. Its value is the input
  `nanPitAsInt`.
- Control.DropPercent: the division by a zero setpoint is undefined in C. It is modelled as "no
  trigger".
- Control.DropPercent: `(_setPoint - pitTemp) * 100` can overflow a 16-bit `int`, which is
  undefined in C. The model picks two's-complement wrap-around, which is what avr-gcc does in
  practice; `Control.DropPercentWraps` shows that choice, not a guaranteed behaviour.
- The PID terms are real numbers, not 32-bit floats: there is no rounding.

## Findings

| source | as written | input that shows it | evidently intended | confidence | as-written member | corrected member |
|---|---|---|---|---|---|---|
| arduino/heatermeter/grillpid.cpp:17-18 | `mappct` multiplies (B − A) by the percentage in 16-bit `unsigned int` arithmetic, but its comment allows any B − A < 6553 | o = 100, A = 0, B = 1000 gives 344 instead of 1000; B − A = 656 already gives 0 | the limit is B − A ≤ 655, so that the interpolation stays exact and within [A, B]; every caller in the file passes a range of at most 255 | not executed; the arithmetic is proved, and no current caller is affected | Control.MapPctWrapsWithinDocumentedLimit | Control.MapPctInRange |
