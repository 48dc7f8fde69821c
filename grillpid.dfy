/** The `GrillPid` orchestrator: it owns the probes, the PID gains and
    terms, the lid-open detector and the fan and servo outputs, and
    `doWork` sequences sampling, finalisation, control and output commit. */
module Grill {
  import opened CInt
  import opened Probe
  import opened Control

  /** Index of the pit probe in `Probes[]`. */
  const TEMP_PIT: nat := 0

  /** Probe kinds that `doWork` samples from the ADC. */
  predicate Sampled(probeType: Byte, p: Params)
  {
    probeType == p.probeTypeInternal || probeType == p.probeTypeTcAnalog
  }

  /** A probe's window after one sub-period of `doWork`. */
  function SubPeriodWindow(w: Window, probeType: Byte, samples: seq<UInt16>, p: Params): (r: Window)
    requires p.oversampleBits <= 3 && |samples| == Pow4(p.oversampleBits)
    ensures r.count == (if Sampled(probeType, p) then w.count + 1 else w.count)
    ensures Sampled(probeType, p) && AnyRailed(samples) ==> r.acc == 0
    ensures !Sampled(probeType, p) ==> r == w
    ensures Sampled(probeType, p) && !AnyRailed(samples) ==>
              Oversample(samples, p.oversampleBits) == Sum(samples) / Pow2(p.oversampleBits)
              && r == AddAdc(w, Oversample(samples, p.oversampleBits), p.oversampleBits)
  {
    if Sampled(probeType, p) then
      OversampleRange(samples, p.oversampleBits);
      AddAdc(w, Oversample(samples, p.oversampleBits), p.oversampleBits)
    else w
  }

  /** `(int)Probes[TEMP_PIT]->Temperature`; the cast of NaN is undefined in
      C, so the value it yields is the caller's `nanPitAsInt`. */
  function PitAsInt(pit: Option<real>, nanPitAsInt: int): (r: int)
    ensures pit.Some? && 0.0 <= pit.value ==> r as real <= pit.value < r as real + 1.0
    ensures pit.Some? && pit.value < 0.0 ==> r as real - 1.0 < pit.value <= r as real
  {
    if pit.Some? then Trunc(pit.value) else nanPitAsInt
  }

  /** How many of the probe kinds equal t. */
  function CountOf(ts: seq<Byte>, t: Byte): (r: nat)
    ensures r <= |ts|
    decreases |ts|
  {
    if ts == [] then 0
    else CountOf(ts[..|ts| - 1], t) + (if ts[|ts| - 1] == t then 1 else 0)
  }

  /** The count is the multiplicity of t among the kinds. */
  lemma {:induction false} CountOfIsMultiplicity(ts: seq<Byte>, t: Byte)
    ensures CountOf(ts, t) == multiset(ts)[t]
    decreases |ts|
  {
    if ts != [] {
      var front := ts[..|ts| - 1];
      CountOfIsMultiplicity(front, t);
      assert ts == front + [ts[|ts| - 1]];
      assert multiset(ts) == multiset(front) + multiset{ts[|ts| - 1]};
    }
  }

  /** The probe kinds of a sequence of probes. */
  function TypesOf(ps: seq<TempProbe>): (r: seq<Byte>)
    reads ps
    ensures |r| == |ps|
    ensures forall k :: 0 <= k < |ps| ==> r[k] == ps[k].probeType
    decreases |ps|
  {
    if ps == [] then [] else TypesOf(ps[..|ps| - 1]) + [ps[|ps| - 1].probeType]
  }

  /** The PID output, the four terms and the lid-open detector. */
  datatype PidState = PidState(output: nat, terms: seq<real>, countdown: UInt16, reached: bool)

  /** Lines 485-519 of `doWork`: in automatic mode the PID law, then the
      lid-open logic on the pit temperature; in manual mode nothing. */
  function ControlPeriod(s: PidState, manual: bool, gains: seq<real>, setPoint: int,
                         pit: Option<real>, pitAvg: real, lidOpen: bool, nanPitAsInt: int,
                         outputAvg: int, duration: UInt16, offset: Byte, p: Params): (r: PidState)
    requires |gains| == 4 && |s.terms| == 4
    ensures |r.terms| == 4
    ensures manual ==> r == s
    ensures !manual ==> r.output <= 100
    ensures !manual && (pit.None? || lidOpen) ==>
              r.output == 0 && r.terms[PIDB] == s.terms[PIDB] && r.terms[PIDP] == s.terms[PIDP]
              && r.terms[PIDD] == s.terms[PIDD]
    ensures !manual && r.reached && !s.reached ==>
              r.countdown == 0 && PitAsInt(pit, nanPitAsInt) >= setPoint
              && r.terms[PIDI] == CalcPid(gains, s.terms, s.output, setPoint, pit, pitAvg, lidOpen).terms[PIDI] * 0.25
    ensures r.countdown != s.countdown && r.countdown != 0 && s.countdown == 0 ==>
              !manual && r.countdown == duration && !r.reached && s.reached
    ensures !manual ==> r.output == CalcPid(gains, s.terms, s.output, setPoint, pit, pitAvg, lidOpen).output
    ensures !manual && s.countdown == 0
            && !(PitAsInt(pit, nanPitAsInt) >= setPoint && duration > p.lidOpenMinAutoresume) ==>
              var event := s.reached && LidOpenTriggers(setPoint, PitAsInt(pit, nanPitAsInt), offset, outputAvg);
              r.countdown == (if event then duration else 0) && r.reached == (s.reached && !event)
  {
    if manual then s
    else
      var pid := CalcPid(gains, s.terms, s.output, setPoint, pit, pitAvg, lidOpen);
      var lid := LidStep(LidState(s.countdown, s.reached, pid.terms[PIDI]), PitAsInt(pit, nanPitAsInt),
                         setPoint, outputAvg, duration, offset, p);
      PidState(pid.output, pid.terms[PIDI := lid.integral], lid.countdown, lid.reached)
  }

  /** A resume duration at or below LIDOPEN_MIN_AUTORESUME leaves the
      detector dormant: from a zero countdown the setpoint is never marked
      reached, so a lid-open event can never fire. */
  lemma {:induction false} DormantAtMinimumDuration(c: LidState, inputs: seq<LidInput>, setPoint: int,
                                                  duration: UInt16, offset: Byte, p: Params)
    requires c.countdown == 0 && !c.reached && duration <= p.lidOpenMinAutoresume
    ensures RunLid(c, inputs, setPoint, duration, offset, p) == c
    decreases |inputs|
  {
    if inputs != [] {
      assert U16(duration - c.countdown) == duration;
      DormantAtMinimumDuration(c, inputs[1..], setPoint, duration, offset, p);
    }
  }

  /** The scalar fields of a `GrillPid`. */
  datatype GrillState = GrillState(
    setPoint: int, pidOutput: nat, manualOutputMode: bool, pitTemperatureReached: bool,
    lidOpenDuration: UInt16, lidOpenResumeCountdown: UInt16, lidOpenOffset: Byte, units: char,
    periodCounter: Byte, lastWorkMillis: nat, fan: FanState, servoOutput: nat)

  class GrillPid {
    const params: Params
    /** `Probes[]`; the pit probe is `probes[TEMP_PIT]`. */
    const probes: seq<TempProbe>
    /** `Pid[]`, the gains B, P, I, D. */
    const pid: array<real>
    /** `_pidCurrent[]`, the terms B, P, I, D of the last evaluation. */
    const pidCurrent: array<real>
    /** Output configuration: speeds, positions and the `_outputFlags` bits. */
    const fanConfig: FanConfig
    const servoConfig: ServoConfig

    var setPoint: int
    var pidOutput: nat
    var manualOutputMode: bool
    var pitTemperatureReached: bool
    var lidOpenDuration: UInt16
    var lidOpenResumeCountdown: UInt16
    var lidOpenOffset: Byte
    var units: char
    var periodCounter: Byte
    var lastWorkMillis: nat
    var longPwmTmr: nat
    var lastBlowerOutput: Byte
    var fanBoostActive: bool
    /** What the fan pin is driven at: the last `analogWrite` duty, or 255
        while a boost start holds it high. */
    var fanPin: Byte
    /** The servo pulse width in microseconds (before the conversion to
        timer ticks). */
    var servoOutput: nat

    ghost predicate Valid()
      reads this, probes
    {
      && params.Valid()
      && 1 <= |probes| <= 255
      && (forall i, j :: 0 <= i < j < |probes| ==> probes[i] != probes[j])
      && (forall i :: 0 <= i < |probes| ==> probes[i].Valid() && probes[i].bits == params.oversampleBits)
      && pid.Length == 4 && pidCurrent.Length == 4 && pid != pidCurrent
      && pidOutput <= 100
      && longPwmTmr < PeriodScale(params)
      && (units == 'A' || units == 'C' || units == 'F' || units == 'R')
    }

    function Fan(): FanState
      reads this
    {
      FanState(longPwmTmr, lastBlowerOutput, fanBoostActive, fanPin)
    }

    function Snapshot(): GrillState
      reads this
    {
      GrillState(setPoint, pidOutput, manualOutputMode, pitTemperatureReached,
                 lidOpenDuration, lidOpenResumeCountdown, lidOpenOffset, units,
                 periodCounter, lastWorkMillis, Fan(), servoOutput)
    }

    function Pid(): PidState
      reads this, pidCurrent
    {
      PidState(pidOutput, pidCurrent[..], lidOpenResumeCountdown, pitTemperatureReached)
    }

    /** A statically allocated controller: fields zero except the period
        counter (0x80, so the first sub-period completes a period) and the
        units ('F'). */
    constructor (p: Params, probeSet: seq<TempProbe>, fan: FanConfig, servo: ServoConfig)
      requires p.Valid() && 1 <= |probeSet| <= 255
      requires forall i, j :: 0 <= i < j < |probeSet| ==> probeSet[i] != probeSet[j]
      requires forall i :: 0 <= i < |probeSet| ==> probeSet[i].Valid() && probeSet[i].bits == p.oversampleBits
      ensures Valid() && fresh(pid) && fresh(pidCurrent)
      ensures params == p && probes == probeSet && fanConfig == fan && servoConfig == servo
      ensures Snapshot() == GrillState(0, 0, false, false, 0, 0, 0, 'F', INITIAL_PERIOD_COUNTER, 0,
                                       FanState(0, 0, false, 0), 0)
      ensures pid[..] == [0.0, 0.0, 0.0, 0.0] && pidCurrent[..] == [0.0, 0.0, 0.0, 0.0]
    {
      params := p;
      probes := probeSet;
      fanConfig := fan;
      servoConfig := servo;
      pid := new real[4](_ => 0.0);
      pidCurrent := new real[4](_ => 0.0);
      setPoint, pidOutput, manualOutputMode, pitTemperatureReached := 0, 0, false, false;
      lidOpenDuration, lidOpenResumeCountdown, lidOpenOffset := 0, 0, 0;
      units, periodCounter, lastWorkMillis := 'F', INITIAL_PERIOD_COUNTER, 0;
      longPwmTmr, lastBlowerOutput, fanBoostActive, fanPin := 0, 0, false, 0;
      servoOutput := 0;
      new;
      assert pid[..] == [0.0, 0.0, 0.0, 0.0];
      assert pidCurrent[..] == [0.0, 0.0, 0.0, 0.0];
    }

    /** `GrillPid::countOfType`: how many probes are of the given kind. */
    method CountOfType(probeType: Byte) returns (count: nat)
      requires Valid()
      ensures count == multiset(TypesOf(probes))[probeType]
    {
      var retVal: Byte := 0;
      var i := 0;
      while i < |probes|
        invariant 0 <= i <= |probes|
        invariant retVal == CountOf(TypesOf(probes)[..i], probeType)
      {
        assert TypesOf(probes)[..i + 1][..i] == TypesOf(probes)[..i];
        if probes[i].probeType == probeType {
          retVal := U8(retVal + 1);
        }
        i := i + 1;
      }
      assert TypesOf(probes)[..i] == TypesOf(probes);
      CountOfIsMultiplicity(TypesOf(probes), probeType);
      count := retVal;
    }

    /** `GrillPid::resetLidOpenResumeCountdown`: start a lid-open event. */
    method ResetLidOpenResumeCountdown()
      modifies this
      ensures Snapshot() == old(Snapshot()).(lidOpenResumeCountdown := lidOpenDuration, pitTemperatureReached := false)
      ensures old(Valid()) ==> Valid()
    {
      lidOpenResumeCountdown := lidOpenDuration;
      pitTemperatureReached := false;
    }

    /** `GrillPid::setSetPoint`: back to automatic control from scratch. */
    method SetSetPoint(value: int)
      requires Valid()
      modifies this, pidCurrent
      ensures Valid()
      ensures Snapshot() == old(Snapshot()).(setPoint := value, pitTemperatureReached := false,
                                             manualOutputMode := false, lidOpenResumeCountdown := 0)
      ensures pidCurrent[..] == old(pidCurrent[..])[PIDI := 0.0]
    {
      setPoint := value;
      pitTemperatureReached := false;
      manualOutputMode := false;
      pidCurrent[PIDI] := 0.0;
      lidOpenResumeCountdown := 0;
    }

    /** `GrillPid::setPidOutput`: manual mode at a clamped output. */
    method SetPidOutput(value: int)
      requires Valid()
      modifies this
      ensures Valid()
      ensures Snapshot() == old(Snapshot()).(manualOutputMode := true, pidOutput := Constrain(value, 0, 100),
                                             lidOpenResumeCountdown := 0)
    {
      manualOutputMode := true;
      pidOutput := Constrain(value, 0, 100);
      lidOpenResumeCountdown := 0;
    }

    /** `GrillPid::setLidOpenDuration`: never below LIDOPEN_MIN_AUTORESUME. */
    method SetLidOpenDuration(value: UInt16)
      requires Valid()
      modifies this
      ensures Valid()
      ensures lidOpenDuration == if value > params.lidOpenMinAutoresume then value else params.lidOpenMinAutoresume
      ensures Snapshot() == old(Snapshot()).(lidOpenDuration := lidOpenDuration)
    {
      lidOpenDuration := if value > params.lidOpenMinAutoresume then value else params.lidOpenMinAutoresume;
    }

    /** `GrillPid::setPidConstant`: a new I gain discards the accumulated sum. */
    method SetPidConstant(idx: nat, value: real)
      requires Valid() && idx < 4
      modifies pid, pidCurrent
      ensures Valid()
      ensures pid[..] == old(pid[..])[idx := value]
      ensures idx == PIDI ==> pidCurrent[..] == old(pidCurrent[..])[PIDI := 0.0]
      ensures idx != PIDI ==> pidCurrent[..] == old(pidCurrent[..])
    {
      pid[idx] := value;
      if idx == PIDI {
        pidCurrent[PIDI] := 0.0;
      }
    }

    /** `GrillPid::setUnits`: only 'A', 'C', 'F' and 'R' are accepted. */
    method SetUnits(u: char)
      requires Valid()
      modifies this
      ensures Valid()
      ensures u == 'A' || u == 'C' || u == 'F' || u == 'R' ==> units == u
      ensures !(u == 'A' || u == 'C' || u == 'F' || u == 'R') ==> units == old(units)
      ensures Snapshot() == old(Snapshot()).(units := units)
    {
      match u {
        case 'A' => units := u;
        case 'C' => units := u;
        case 'F' => units := u;
        case 'R' => units := u;
        case _ =>
      }
    }

    /** `GrillPid::calcPidOutput`, with `isLidOpen()` given as lidOpen and the
        pit's smoothed average as pitAvg. */
    method CalcPidOutput(pitAvg: real, lidOpen: bool)
      requires Valid()
      modifies this, pidCurrent
      ensures Valid()
      ensures var r := CalcPid(old(pid[..]), old(pidCurrent[..]), old(pidOutput), setPoint,
                               probes[TEMP_PIT].temperature, pitAvg, lidOpen);
              pidOutput == r.output && pidCurrent[..] == r.terms
      ensures Snapshot() == old(Snapshot()).(pidOutput := pidOutput)
    {
      var lastOutput := pidOutput;
      pidOutput := 0;
      var pit := probes[TEMP_PIT];
      if pit.temperature.None? {
        return;
      }
      if lidOpen {
        return;
      }
      UpdateTerms(pit.temperature.value, pitAvg, lastOutput);
      var control := Trunc(pidCurrent[PIDB] + pidCurrent[PIDP] + pidCurrent[PIDI] + pidCurrent[PIDD]);
      pidOutput := Constrain(control, 0, 100);
    }

    /** Lines 287-301 of `calcPidOutput`: the four terms for the pit
        temperature currentTemp, with the output of the previous period
        gating the integral. */
    method UpdateTerms(currentTemp: real, pitAvg: real, lastOutput: int)
      requires Valid()
      modifies pidCurrent
      ensures pidCurrent[..] == PidTerms(pid[..], old(pidCurrent[..]), lastOutput, setPoint, currentTemp, pitAvg)
    {
      ghost var terms := pidCurrent[..];
      var error := setPoint as real - currentTemp;
      pidCurrent[PIDP] := pid[PIDP] * error;
      if (error > 0.0 && lastOutput < 100) || (error < 0.0 && lastOutput > 0) {
        pidCurrent[PIDI] := pidCurrent[PIDI] + pid[PIDI] * error;
      }
      pidCurrent[PIDD] := pid[PIDD] * (pitAvg - currentTemp);
      pidCurrent[PIDB] := pid[PIDB];
      ghost var t := PidTerms(pid[..], terms, lastOutput, setPoint, currentTemp, pitAvg);
      assert pidCurrent[PIDB] == t[PIDB] && pidCurrent[PIDP] == t[PIDP];
      assert pidCurrent[PIDI] == t[PIDI] && pidCurrent[PIDD] == t[PIDD];
      assert pidCurrent[..] == t;
    }

    /** `GrillPid::commitFanOutput`. */
    method CommitFanOutput()
      requires Valid()
      modifies this
      ensures Valid()
      ensures Fan() == CommitFan(old(Fan()), pidOutput, fanConfig, PeriodScale(params))
      ensures Snapshot() == old(Snapshot()).(fan := Fan())
    {
      ghost var before := Fan();
      ghost var scale := PeriodScale(params);
      ghost var target := CommitFan(before, pidOutput, fanConfig, scale);
      assert target == WriteDuty(before, NextTmr(longPwmTmr, pidOutput, fanConfig, scale),
                                 BlowerDuty(CommandedSpeed(longPwmTmr, pidOutput, fanConfig, scale), fanConfig));
      var fanSpeed := LongPulseSpeed(FanSpeed(pidOutput, fanConfig));
      WriteBlowerDuty(BlowerDuty(fanSpeed, fanConfig));
      assert Fan() == target;
    }

    /** Lines 339-355 of `commitFanOutput`: write the duty, driving the pin
        fully on for a start from standstill. */
    method WriteBlowerDuty(newBlowerOutput: Byte)
      requires Valid()
      modifies this
      ensures Valid()
      ensures Snapshot() == old(Snapshot()).(fan := WriteDuty(old(Fan()), old(longPwmTmr), newBlowerOutput))
    {
      fanPin := newBlowerOutput;
      if lastBlowerOutput == 0 && newBlowerOutput != 0 {
        fanPin := 255;
        fanBoostActive := true;
      }
      lastBlowerOutput := newBlowerOutput;
    }

    /** Lines 319-337 of `commitFanOutput`: the long-pulse emulation below
        the minimum fan speed. */
    method LongPulseSpeed(speed: Byte) returns (fanSpeed: Byte)
      requires Valid() && speed == FanSpeed(pidOutput, fanConfig)
      modifies this
      ensures Valid()
      ensures fanSpeed == CommandedSpeed(old(longPwmTmr), pidOutput, fanConfig, PeriodScale(params))
      ensures longPwmTmr == NextTmr(old(longPwmTmr), pidOutput, fanConfig, PeriodScale(params))
      ensures Snapshot() == old(Snapshot()).(fan := old(Fan()).(longPwmTmr := longPwmTmr))
    {
      var scale := PeriodScale(params);
      fanSpeed := speed;
      if fanSpeed >= fanConfig.minFanSpeed {
        longPwmTmr := 0;
      } else {
        if U16(scale * fanSpeed) / fanConfig.minFanSpeed > longPwmTmr {
          fanSpeed := fanConfig.minFanSpeed;
        } else {
          fanSpeed := 0;
        }
        longPwmTmr := longPwmTmr + 1;
        if longPwmTmr > scale - 1 {
          longPwmTmr := 0;
        }
      }
    }

    /** `GrillPid::commitServoOutput`. */
    method CommitServoOutput()
      requires Valid()
      modifies this
      ensures Valid()
      ensures servoOutput == 10 * ServoPosition(pidOutput, servoConfig)
      ensures Snapshot() == old(Snapshot()).(servoOutput := servoOutput)
    {
      var output: Byte;
      if servoConfig.servoAnyMax && pidOutput > 0 {
        output := 100;
      } else {
        output := pidOutput;
      }
      if servoConfig.invertServo {
        output := 100 - output;
      }
      output := U8(MapPct(output, servoConfig.minServoPos, servoConfig.maxServoPos));
      servoOutput := 10 * output;
    }

    /** Lines 472-475 of `doWork`: one oversampled reading per ADC probe. */
    method SampleProbes(samples: seq<seq<UInt16>>)
      requires Valid() && |samples| == |probes|
      requires forall k :: 0 <= k < |samples| ==> |samples[k]| == Pow4(params.oversampleBits)
      modifies probes
      ensures Valid()
      ensures forall k :: 0 <= k < |probes| ==>
                && probes[k].CurrentWindow()
                   == SubPeriodWindow(old(probes[k].CurrentWindow()), old(probes[k].probeType), samples[k], params)
                && probes[k].probeType == old(probes[k].probeType)
                && probes[k].temperature == old(probes[k].temperature)
    {
      var i := 0;
      while i < |probes|
        invariant 0 <= i <= |probes|
        invariant Valid()
        invariant forall k :: 0 <= k < i ==>
                    && probes[k].CurrentWindow()
                       == SubPeriodWindow(old(probes[k].CurrentWindow()), old(probes[k].probeType), samples[k], params)
                    && probes[k].probeType == old(probes[k].probeType)
                    && probes[k].temperature == old(probes[k].temperature)
        invariant forall k :: i <= k < |probes| ==>
                    && probes[k].CurrentWindow() == old(probes[k].CurrentWindow())
                    && probes[k].probeType == old(probes[k].probeType)
                    && probes[k].temperature == old(probes[k].temperature)
      {
        var probe := probes[i];
        if probe.probeType == params.probeTypeInternal || probe.probeType == params.probeTypeTcAnalog {
          probe.ReadTemp(samples[i]);
        }
        i := i + 1;
      }
    }

    /** Lines 482-483 of `doWork`: every probe finalises its window. */
    method FinalizeProbes(converts: seq<nat -> Option<real>>)
      requires Valid() && |converts| == |probes|
      modifies probes
      ensures Valid()
      ensures forall k :: 0 <= k < |probes| ==>
                && probes[k].CurrentEstimate() == Finalize(old(probes[k].CurrentEstimate()), units, converts[k])
                && probes[k].probeType == old(probes[k].probeType)
    {
      var i := 0;
      while i < |probes|
        invariant 0 <= i <= |probes|
        invariant Valid()
        invariant forall k :: 0 <= k < i ==>
                    && probes[k].CurrentEstimate() == Finalize(old(probes[k].CurrentEstimate()), units, converts[k])
                    && probes[k].probeType == old(probes[k].probeType)
        invariant forall k :: i <= k < |probes| ==>
                    && probes[k].CurrentEstimate() == old(probes[k].CurrentEstimate())
                    && probes[k].probeType == old(probes[k].probeType)
      {
        probes[i].CalcTemp(units, converts[i]);
        i := i + 1;
      }
    }

    /** Lines 485-519 of `doWork`. */
    method ControlStep(pitAvg: real, lidOpen: bool, nanPitAsInt: int, outputAvg: int)
      requires Valid()
      modifies this, pidCurrent
      ensures Valid()
      ensures Pid() == ControlPeriod(old(Pid()), manualOutputMode, pid[..], setPoint,
                                     probes[TEMP_PIT].temperature, pitAvg, lidOpen, nanPitAsInt,
                                     outputAvg, lidOpenDuration, lidOpenOffset, params)
      ensures Snapshot() == old(Snapshot()).(pidOutput := pidOutput, lidOpenResumeCountdown := lidOpenResumeCountdown,
                                             pitTemperatureReached := pitTemperatureReached)
    {
      if manualOutputMode {
        return;
      }
      ghost var before := Pid();
      CalcPidOutput(pitAvg, lidOpen);
      ghost var pid' := CalcPid(pid[..], before.terms, before.output, setPoint,
                                probes[TEMP_PIT].temperature, pitAvg, lidOpen);
      assert pidCurrent[..] == pid'.terms;
      var pitTemp := PitAsInt(probes[TEMP_PIT].temperature, nanPitAsInt);
      LidOpenStep(pitTemp, outputAvg);
    }

    /** The lid-open state machine of `doWork` (lines 494-518) on the
        countdown, the reached flag and the integral term. */
    method LidOpenStep(pitTemp: int, outputAvg: int)
      requires Valid()
      modifies this, pidCurrent
      ensures Valid()
      ensures LidState(lidOpenResumeCountdown, pitTemperatureReached, pidCurrent[PIDI])
              == LidStep(old(LidState(lidOpenResumeCountdown, pitTemperatureReached, pidCurrent[PIDI])),
                         pitTemp, setPoint, outputAvg, lidOpenDuration, lidOpenOffset, params)
      ensures pidCurrent[..] == old(pidCurrent[..])[PIDI := pidCurrent[PIDI]]
      ensures Snapshot() == old(Snapshot()).(lidOpenResumeCountdown := lidOpenResumeCountdown,
                                             pitTemperatureReached := pitTemperatureReached)
    {
      if pitTemp >= setPoint && U16(lidOpenDuration - lidOpenResumeCountdown) > params.lidOpenMinAutoresume {
        if !pitTemperatureReached {
          pitTemperatureReached := true;
          pidCurrent[PIDI] := pidCurrent[PIDI] * 0.25;
        }
        lidOpenResumeCountdown := 0;
      } else if lidOpenResumeCountdown != 0 {
        lidOpenResumeCountdown := U16(lidOpenResumeCountdown - CountdownStep(params));
      } else if pitTemperatureReached && LidOpenTriggers(setPoint, pitTemp, lidOpenOffset, outputAvg) {
        ResetLidOpenResumeCountdown();
      }
    }

    /** Lines 459-480 of `doWork`: the work of every sub-period. A boost
        start ends after one sub-period, the ADC probes are sampled and the
        period counter advances; returns whether the period is complete. */
    method SubPeriod(now: nat, samples: seq<seq<UInt16>>) returns (full: bool)
      requires Valid() && |samples| == |probes|
      requires forall k :: 0 <= k < |samples| ==> |samples[k]| == Pow4(params.oversampleBits)
      modifies this, probes
      ensures Valid()
      ensures var tick := TickCounter(old(periodCounter), params);
              && full == tick.full
              && Snapshot() == old(Snapshot()).(lastWorkMillis := now, periodCounter := tick.counter,
                                                 fan := EndBoost(old(Fan())))
      ensures forall k :: 0 <= k < |probes| ==>
                && probes[k].CurrentWindow()
                   == SubPeriodWindow(old(probes[k].CurrentWindow()), old(probes[k].probeType), samples[k], params)
                && probes[k].probeType == old(probes[k].probeType)
                && probes[k].temperature == old(probes[k].temperature)
    {
      lastWorkMillis := now;
      EndFanBoost();
      SampleProbes(samples);
      full := AdvancePeriodCounter();
    }

    /** Lines 462-468 of `doWork`: a boost start ends after one sub-period. */
    method EndFanBoost()
      requires Valid()
      modifies this
      ensures Valid()
      ensures Snapshot() == old(Snapshot()).(fan := EndBoost(old(Fan())))
    {
      if fanBoostActive {
        fanPin := lastBlowerOutput;
        fanBoostActive := false;
      }
    }

    /** Lines 477-480 of `doWork`: count the sub-period; a full period
        restarts the count. */
    method AdvancePeriodCounter() returns (full: bool)
      requires Valid()
      modifies this
      ensures Valid()
      ensures var tick := TickCounter(old(periodCounter), params);
              full == tick.full && Snapshot() == old(Snapshot()).(periodCounter := tick.counter)
    {
      periodCounter := U8(periodCounter + 1);
      if periodCounter < params.avgCount {
        return false;
      }
      periodCounter := 0;
      return true;
    }

    /** Lines 482-523 of `doWork`: the work of a completed period. */
    method FinishPeriod(converts: seq<nat -> Option<real>>, lidOpen: bool, pitAvg: real,
                        outputAvg: int, nanPitAsInt: int)
      requires Valid() && |converts| == |probes|
      modifies this, probes, pidCurrent
      ensures Valid()
      ensures forall k :: 0 <= k < |probes| ==>
                && probes[k].CurrentEstimate() == Finalize(old(probes[k].CurrentEstimate()), units, converts[k])
                && probes[k].probeType == old(probes[k].probeType)
      ensures var c := ControlPeriod(old(Pid()), manualOutputMode, pid[..], setPoint,
                                     probes[TEMP_PIT].temperature, pitAvg, lidOpen, nanPitAsInt,
                                     outputAvg, lidOpenDuration, lidOpenOffset, params);
              && Pid() == c
              && Snapshot() == old(Snapshot()).(
                   pidOutput := c.output, lidOpenResumeCountdown := c.countdown,
                   pitTemperatureReached := c.reached,
                   fan := CommitFan(old(Fan()), c.output, fanConfig, PeriodScale(params)),
                   servoOutput := 10 * ServoPosition(c.output, servoConfig))
    {
      FinalizeProbes(converts);
      ControlStep(pitAvg, lidOpen, nanPitAsInt, outputAvg);
      CommitFanOutput();
      CommitServoOutput();
    }

    /** `GrillPid::doWork` at time `now` (milliseconds, 32 bits). The ADC
        readings of this sub-period, one sequence per probe, stand for
        `analogRead`; `converts` for each probe's temperature curve;
        `lidOpen` for `isLidOpen()`; `pitAvg` for the pit's smoothed
        temperature and `outputAvg` for `(int)PidOutputAvg`. Returns whether
        a full period completed. */
    method DoWork(now: nat, samples: seq<seq<UInt16>>, converts: seq<nat -> Option<real>>,
                  lidOpen: bool, pitAvg: real, outputAvg: int, nanPitAsInt: int) returns (worked: bool)
      requires Valid()
      requires |samples| == |probes| && |converts| == |probes|
      requires forall k :: 0 <= k < |samples| ==> |samples[k]| == Pow4(params.oversampleBits)
      modifies this, probes, pidCurrent
      ensures Valid()
      ensures !Due(now, old(lastWorkMillis), params) ==>
                && !worked && Snapshot() == old(Snapshot()) && pidCurrent[..] == old(pidCurrent[..])
                && forall k :: 0 <= k < |probes| ==> probes[k].CurrentEstimate() == old(probes[k].CurrentEstimate())
      ensures Due(now, old(lastWorkMillis), params) ==>
                var tick := TickCounter(old(periodCounter), params);
                && worked == tick.full
                && (forall k :: 0 <= k < |probes| ==>
                      var w := SubPeriodWindow(old(probes[k].CurrentWindow()), old(probes[k].probeType), samples[k], params);
                      probes[k].CurrentEstimate()
                      == if tick.full then Finalize(Estimate(w, old(probes[k].temperature)), units, converts[k])
                         else Estimate(w, old(probes[k].temperature)))
                && (!tick.full ==>
                      && Snapshot() == old(Snapshot()).(lastWorkMillis := now, periodCounter := tick.counter,
                                                         fan := EndBoost(old(Fan())))
                      && pidCurrent[..] == old(pidCurrent[..]))
                && (tick.full ==>
                      var c := ControlPeriod(old(Pid()), manualOutputMode, pid[..], setPoint,
                                             probes[TEMP_PIT].temperature, pitAvg, lidOpen, nanPitAsInt,
                                             outputAvg, lidOpenDuration, lidOpenOffset, params);
                      && Pid() == c
                      && Snapshot() == old(Snapshot()).(
                           lastWorkMillis := now, periodCounter := 0,
                           pidOutput := c.output, lidOpenResumeCountdown := c.countdown,
                           pitTemperatureReached := c.reached,
                           fan := CommitFan(EndBoost(old(Fan())), c.output, fanConfig, PeriodScale(params)),
                           servoOutput := 10 * ServoPosition(c.output, servoConfig)))
      ensures forall k :: 0 <= k < |probes| ==> probes[k].probeType == old(probes[k].probeType)
    {
      var elapsed := U16(now - lastWorkMillis);
      if elapsed < params.measurePeriod / params.avgCount {
        return false;
      }
      worked := SubPeriod(now, samples);
      if !worked {
        return;
      }
      FinishPeriod(converts, lidOpen, pitAvg, outputAvg, nanPitAsInt);
    }
  }
}
