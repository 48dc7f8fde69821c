/** The control laws of `GrillPid` as functions of the controller's state:
    the PID law with its anti-windup gate, the fan and servo output
    mapping (long-pulse PWM and boost start), the lid-open / auto-resume
    state machine, and the cadence (throttle and period counter). The
    `GrillPid` class applies them to its fields. */
module Control {
  import opened CInt

  /** Indices into the gain array `Pid[]` and the term array `_pidCurrent[]`. */
  const PIDB: nat := 0
  const PIDP: nat := 1
  const PIDI: nat := 2
  const PIDD: nat := 3

  /** The long-pulse PWM window, in milliseconds. */
  const LONG_PWM_PERIOD: nat := 10000

  /** The build-time constants of the controller. */
  datatype Params = Params(
    oversampleBits: nat,        // TEMP_OVERSAMPLE_BITS
    measurePeriod: nat,         // TEMP_MEASURE_PERIOD, milliseconds per full period
    avgCount: nat,              // TEMP_AVG_COUNT, sub-periods per full period
    lidOpenMinAutoresume: nat,  // LIDOPEN_MIN_AUTORESUME, seconds
    probeTypeInternal: Byte,    // PROBETYPE_INTERNAL
    probeTypeTcAnalog: Byte)    // PROBETYPE_TC_ANALOG
  {
    /** What the code relies on: at most 64 samples per sub-period, a long
        PWM window of at least one period, and a sub-period count the
        8-bit period counter can reach. */
    predicate Valid()
    {
      && oversampleBits <= 3
      && 0 < measurePeriod <= LONG_PWM_PERIOD
      && 1 <= avgCount <= 0xFF
      && lidOpenMinAutoresume < U16_MOD
    }
  }

  /** `PERIOD_SCALE`: full periods per long-pulse PWM window. */
  function PeriodScale(p: Params): (r: nat)
    requires p.Valid()
    ensures 1 <= r <= LONG_PWM_PERIOD
  {
    LONG_PWM_PERIOD / p.measurePeriod
  }

  /** Seconds that pass per full period: the countdown decrement. */
  function CountdownStep(p: Params): nat
  {
    p.measurePeriod / 1000
  }

  // ---------------------------------------------------------------- PID law

  /** Anti-windup: the integral accumulates only while the previous output
      left room to move in the error's direction. */
  predicate IntegralActive(error: real, lastOutput: int): (r: bool)
    ensures error == 0.0 ==> !r
    ensures 0 < lastOutput < 100 ==> (r <==> error != 0.0)
    ensures lastOutput >= 100 ==> (r <==> error < 0.0)
    ensures lastOutput <= 0 ==> (r <==> error > 0.0)
  {
    (error > 0.0 && lastOutput < 100) || (error < 0.0 && lastOutput > 0)
  }

  /** The output percentage and the four terms B, P, I, D. */
  datatype PidResult = PidResult(output: nat, terms: seq<real>)

  /** The four terms after one evaluation with pit temperature currentTemp:
      the bias, the proportional term on the error, the integral advanced by
      the error only when the anti-windup gate is open, and the derivative
      term on the gap between the smoothed and the current temperature. */
  function PidTerms(gains: seq<real>, terms: seq<real>, lastOutput: int, setPoint: int,
                    currentTemp: real, pitAvg: real): (r: seq<real>)
    requires |gains| == 4 && |terms| == 4
    ensures |r| == 4
    ensures var error := setPoint as real - currentTemp;
            && r[PIDB] == gains[PIDB]
            && r[PIDP] == gains[PIDP] * error
            && r[PIDD] == gains[PIDD] * (pitAvg - currentTemp)
            && (IntegralActive(error, lastOutput) ==> r[PIDI] == terms[PIDI] + gains[PIDI] * error)
            && (!IntegralActive(error, lastOutput) ==> r[PIDI] == terms[PIDI])
  {
    var error := setPoint as real - currentTemp;
    var p := gains[PIDP] * error;
    var i := if IntegralActive(error, lastOutput) then terms[PIDI] + gains[PIDI] * error else terms[PIDI];
    var d := gains[PIDD] * (pitAvg - currentTemp);
    var b := gains[PIDB];
    [b, p, i, d]
  }

  /** `GrillPid::calcPidOutput`. `pit` is the pit probe's temperature (None:
      no temperature), `pitAvg` its smoothed average, `lidOpen` the value
      of `isLidOpen()`. */
  function CalcPid(gains: seq<real>, terms: seq<real>, lastOutput: int, setPoint: int,
                   pit: Option<real>, pitAvg: real, lidOpen: bool): (r: PidResult)
    requires |gains| == 4 && |terms| == 4
    ensures |r.terms| == 4 && r.output <= 100
    ensures pit.None? || lidOpen ==> r == PidResult(0, terms)
    ensures r.terms[PIDI] != terms[PIDI] ==>
              pit.Some? && !lidOpen && IntegralActive(setPoint as real - pit.value, lastOutput)
    ensures pit.Some? && !lidOpen ==>
              && r.terms == PidTerms(gains, terms, lastOutput, setPoint, pit.value, pitAvg)
              && r.output == ClampOutput(r.terms[PIDB] + r.terms[PIDP] + r.terms[PIDI] + r.terms[PIDD])
  {
    if pit.None? || lidOpen then PidResult(0, terms)
    else
      var t := PidTerms(gains, terms, lastOutput, setPoint, pit.value, pitAvg);
      PidResult(ClampOutput(t[PIDB] + t[PIDP] + t[PIDI] + t[PIDD]), t)
  }

  /** `constrain((int)control, 0, 100)`: the control sum truncated to an
      integer percentage and saturated at both ends. */
  function ClampOutput(control: real): (r: nat)
    ensures r <= 100
    ensures control >= 100.0 ==> r == 100
    ensures control < 1.0 ==> r == 0
    ensures 1.0 <= control < 100.0 ==> r as real <= control < r as real + 1.0
  {
    Constrain(Trunc(control), 0, 100)
  }

  /** Truncation toward zero and rounding down differ only on (-1, 0),
      which the clamp to [0, 100] maps to 0 either way. */
  lemma ClampedTruncIsClampedFloor(x: real)
    ensures ClampOutput(x) == Constrain(x.Floor, 0, 100)
  {
    if x < 0.0 {
      assert Trunc(x) <= 0 && x.Floor <= 0;
    }
  }

  /** One control period's view of the pit probe. */
  datatype PidInput = PidInput(pit: Option<real>, pitAvg: real, lidOpen: bool)

  /** Successive evaluations of the PID law, each seeing the previous output. */
  function RunPid(gains: seq<real>, terms: seq<real>, output: int, setPoint: int, inputs: seq<PidInput>): (r: PidResult)
    requires |gains| == 4 && |terms| == 4
    ensures |r.terms| == 4
    decreases |inputs|
  {
    if inputs == [] then PidResult(if 0 <= output then output else 0, terms)
    else
      var step := CalcPid(gains, terms, output, setPoint, inputs[0].pit, inputs[0].pitAvg, inputs[0].lidOpen);
      RunPid(gains, step.terms, step.output, setPoint, inputs[1..])
  }

  /** The control sum B + P + I + D for pit temperature temp, with the
      integral as given. */
  function ControlSum(gains: seq<real>, integral: real, setPoint: int, temp: real, pitAvg: real): real
    requires |gains| == 4
  {
    gains[PIDB] + gains[PIDP] * (setPoint as real - temp) + integral + gains[PIDD] * (pitAvg - temp)
  }

  /** One period in which the pit is below the setpoint and the bias,
      proportional and derivative terms with the integral as it stands
      keep the control sum at or above 100. */
  predicate Saturating(gains: seq<real>, integral: real, setPoint: int, input: PidInput)
    requires |gains| == 4
  {
    && input.pit.Some? && !input.lidOpen
    && input.pit.value < setPoint as real
    && ControlSum(gains, integral, setPoint, input.pit.value, input.pitAvg) >= 100.0
  }

  /** Anti-windup at full output: while every period is saturating with the
      integral as it stood, the integral does not grow and the output stays
      at 100. */
  lemma {:induction false} SaturationFreezesIntegral(gains: seq<real>, terms: seq<real>, setPoint: int, inputs: seq<PidInput>)
    requires |gains| == 4 && |terms| == 4
    requires forall k :: 0 <= k < |inputs| ==> Saturating(gains, terms[PIDI], setPoint, inputs[k])
    ensures RunPid(gains, terms, 100, setPoint, inputs).terms[PIDI] == terms[PIDI]
    ensures RunPid(gains, terms, 100, setPoint, inputs).output == 100
    decreases |inputs|
  {
    if inputs != [] {
      var input := inputs[0];
      assert Saturating(gains, terms[PIDI], setPoint, input);
      var temp := input.pit.value;
      var step := CalcPid(gains, terms, 100, setPoint, input.pit, input.pitAvg, input.lidOpen);
      var t := PidTerms(gains, terms, 100, setPoint, temp, input.pitAvg);
      assert step.terms == t;
      assert t[PIDI] == terms[PIDI];
      var sum := t[PIDB] + t[PIDP] + t[PIDI] + t[PIDD];
      assert sum == ControlSum(gains, terms[PIDI], setPoint, temp, input.pitAvg);
      assert step.output == ClampOutput(sum) == 100;
      assert forall k :: 0 <= k < |inputs[1..]| ==> inputs[1..][k] == inputs[k + 1];
      SaturationFreezesIntegral(gains, step.terms, setPoint, inputs[1..]);
    }
  }

  // ------------------------------------------------------------ fan output

  /** `mappct(o, a, b)`: linear interpolation of percentage o into [a, b],
      evaluated in 16-bit unsigned arithmetic. */
  function MapPct(o: int, a: int, b: int): (r: UInt16)
    ensures 0 <= a < U16_MOD && o == 0 ==> r == a
  {
    U16(U16((b - a) * o) / 100 + a)
  }

  /** Within 16-bit range the interpolation is exact and stays in [a, b]. */
  lemma MapPctInRange(o: nat, a: nat, b: nat)
    requires o <= 100 && a <= b < U16_MOD && b - a <= 655
    ensures MapPct(o, a, b) == a + (b - a) * o / 100
    ensures a <= MapPct(o, a, b) <= b
    ensures o == 0 ==> MapPct(o, a, b) == a
    ensures o == 100 ==> MapPct(o, a, b) == b
  {
    var q := ScaledPct(o, b - a);
    assert U16((b - a) * o) == (b - a) * o;
    assert MapPct(o, a, b) == U16(q + a) == q + a;
  }

  /** d · o / 100 for o ≤ 100 and d ≤ 655: the product fits 16 bits and
      the quotient lies in [0, d], reaching d at 100 %. */
  lemma ScaledPct(o: nat, d: nat) returns (q: nat)
    requires o <= 100 && d <= 655
    ensures q == d * o / 100 && q <= d && d * o < U16_MOD
    ensures o == 0 ==> q == 0
    ensures o == 100 ==> q == d
  {
    MulLe(d, o, 100);
    DivBound(d * o, 100, d);
    q := d * o / 100;
    if o == 100 {
      assert d * o == d * 100;
    }
  }

  lemma MulLe(d: nat, x: nat, y: nat)
    requires x <= y
    ensures d * x <= d * y
  {
  }

  /** The interpolation's documented limit, B - A < 6553, is ten times too
      generous: at B - A = 1000 the product wraps and full output lands far
      below B, and the first range that goes wrong is B - A = 656, one past
      the limit `MapPctInRange` proves. */
  lemma MapPctWrapsWithinDocumentedLimit()
    ensures 1000 - 0 < 6553 && MapPct(100, 0, 1000) == 344
    ensures 656 - 0 < 6553 && MapPct(100, 0, 656) == 0
  {
    assert U16(1000 * 100) == 34464;
    assert U16(656 * 100) == 64;
  }

  /** The fan configuration: percent limits and the flags of `_outputFlags`. */
  datatype FanConfig = FanConfig(minFanSpeed: Byte, maxFanSpeed: Byte, fanOnlyMax: bool, invertFan: bool)

  /** `GrillPid::getFanSpeed`: the output scaled to the maximum fan speed,
      or nothing below full output in fan-only-at-max mode. */
  function FanSpeed(output: nat, c: FanConfig): (r: Byte)
    requires output <= 100
    ensures r <= c.maxFanSpeed
    ensures c.fanOnlyMax && output < 100 ==> r == 0
    ensures output == 100 ==> r == c.maxFanSpeed
  {
    if c.fanOnlyMax && output < 100 then 0
    else
      assert output * c.maxFanSpeed <= 100 * c.maxFanSpeed;
      output * c.maxFanSpeed / 100
  }

  /** Unless held at zero, the fan speed is the output percentage of the
      maximum speed, rounded down. */
  lemma FanSpeedScales(output: nat, c: FanConfig)
    requires output <= 100 && (!c.fanOnlyMax || output == 100)
    ensures FanSpeed(output, c) * 100 <= output * c.maxFanSpeed < (FanSpeed(output, c) + 1) * 100
  {
  }

  /** One step of the long-pulse emulation below the minimum fan speed: run
      at the minimum for the first ⌊SCALE·speed/min⌋ periods of each window
      of SCALE periods, then off. */
  datatype PulseStep = PulseStep(on: bool, tmr: nat)

  function LongPulse(tmr: nat, speed: Byte, minSpeed: Byte, scale: nat): (r: PulseStep)
    requires speed < minSpeed && 1 <= scale
    ensures tmr < scale ==> r.tmr < scale
    ensures r.tmr == (if tmr + 1 > scale - 1 then 0 else tmr + 1)
    ensures r.on <==> tmr < U16(scale * speed) / minSpeed
  {
    PulseStep(U16(scale * speed) / minSpeed > tmr, if tmr + 1 > scale - 1 then 0 else tmr + 1)
  }

  /** Periods the fan runs during n steps of the emulation from phase tmr. */
  function OnCount(tmr: nat, speed: Byte, minSpeed: Byte, scale: nat, n: nat): nat
    requires speed < minSpeed && 1 <= scale
    decreases n
  {
    if n == 0 then 0
    else
      var s := LongPulse(tmr, speed, minSpeed, scale);
      (if s.on then 1 else 0) + OnCount(s.tmr, speed, minSpeed, scale, n - 1)
  }

  function Min(a: int, b: int): int { if a < b then a else b }
  function Max(a: int, b: int): int { if a < b then b else a }

  lemma {:induction false} OnCountFrom(t: nat, speed: Byte, minSpeed: Byte, scale: nat)
    requires speed < minSpeed && 1 <= scale && t <= scale
    ensures OnCount(t, speed, minSpeed, scale, scale - t) == Max(0, Min(U16(scale * speed) / minSpeed, scale) - t)
    decreases scale - t
  {
    if t < scale {
      var s := LongPulse(t, speed, minSpeed, scale);
      if t + 1 < scale {
        assert s.tmr == t + 1;
        OnCountFrom(t + 1, speed, minSpeed, scale);
      } else {
        assert scale - t - 1 == 0;
      }
    }
  }

  /** Over one window that starts at phase 0 with a constant speed below the
      minimum, the fan runs for exactly ⌊SCALE·speed/min⌋ of the SCALE
      periods (when that product fits in 16 bits), and the phase is back at 0. */
  lemma LongPulseWindow(speed: Byte, minSpeed: Byte, scale: nat)
    requires speed < minSpeed && 1 <= scale && scale * speed < U16_MOD
    ensures OnCount(0, speed, minSpeed, scale, scale) == scale * speed / minSpeed
    ensures scale * speed / minSpeed < scale
  {
    OnCountFrom(0, speed, minSpeed, scale);
    assert scale * speed < scale * minSpeed;
    assert scale * speed / minSpeed < scale by {
      DivLtScale(scale * speed, minSpeed, scale);
    }
  }

  lemma DivLtScale(a: nat, b: nat, c: nat)
    requires 0 < b && a < c * b
    ensures a / b < c
  {
    var q := a / b;
    assert q * b <= a;
    assert q * b < c * b;
  }

  /** The fan's state: the long-pulse phase, the last duty written, whether a
      boost start is in progress, and what the fan pin is driven at now
      (255 for a `digitalWrite(HIGH)`). */
  datatype FanState = FanState(longPwmTmr: nat, lastBlowerOutput: Byte, fanBoostActive: bool, pin: Byte)

  /** The fan speed actually commanded: the requested speed at or above the
      minimum, else the long-pulse emulation's minimum-or-nothing. */
  function CommandedSpeed(tmr: nat, output: nat, c: FanConfig, scale: nat): (r: Byte)
    requires output <= 100 && 1 <= scale
    ensures FanSpeed(output, c) < c.minFanSpeed ==> r == c.minFanSpeed || r == 0
    ensures FanSpeed(output, c) >= c.minFanSpeed ==> r == FanSpeed(output, c)
  {
    var speed := FanSpeed(output, c);
    if speed >= c.minFanSpeed then speed
    else if LongPulse(tmr, speed, c.minFanSpeed, scale).on then c.minFanSpeed else 0
  }

  /** The PWM duty for a commanded speed, after inversion. */
  function BlowerDuty(speed: Byte, c: FanConfig): (r: Byte)
    ensures !c.invertFan && speed == 0 ==> r == 0
    ensures c.invertFan && speed == c.maxFanSpeed ==> r == 0
  {
    var fanSpeed := if c.invertFan then U8(c.maxFanSpeed - speed) else speed;
    var duty := MapPct(fanSpeed, 0, 255);
    assert fanSpeed == 0 ==> duty == 0;
    U8(duty)
  }

  /** For speeds up to a maximum of at most 100 % the duty is the speed (or,
      inverted, its complement to the maximum) as a fraction of 255. */
  lemma BlowerDutyScales(speed: Byte, c: FanConfig)
    requires speed <= c.maxFanSpeed <= 100
    ensures !c.invertFan ==> BlowerDuty(speed, c) == 255 * speed / 100
    ensures c.invertFan ==> BlowerDuty(speed, c) == 255 * (c.maxFanSpeed - speed) / 100
    ensures speed == 0 && !c.invertFan ==> BlowerDuty(speed, c) == 0
    ensures speed == 100 && !c.invertFan ==> BlowerDuty(speed, c) == 255
  {
    var fanSpeed := if c.invertFan then c.maxFanSpeed - speed else speed;
    MapPctInRange(fanSpeed, 0, 255);
  }

  /** The long-pulse phase after one commit. */
  function NextTmr(tmr: nat, output: nat, c: FanConfig, scale: nat): (r: nat)
    requires output <= 100 && 1 <= scale
    ensures tmr < scale ==> r < scale
    ensures FanSpeed(output, c) >= c.minFanSpeed ==> r == 0
  {
    var speed := FanSpeed(output, c);
    if speed >= c.minFanSpeed then 0 else LongPulse(tmr, speed, c.minFanSpeed, scale).tmr
  }

  /** Writing a new duty: a start from standstill drives the pin fully on. */
  function WriteDuty(s: FanState, tmr: nat, duty: Byte): (r: FanState)
    ensures r.longPwmTmr == tmr && r.lastBlowerOutput == duty
    ensures s.lastBlowerOutput == 0 && duty != 0 ==> r.pin == 255 && r.fanBoostActive
    ensures !(s.lastBlowerOutput == 0 && duty != 0) ==> r.pin == duty && r.fanBoostActive == s.fanBoostActive
  {
    var boost := s.lastBlowerOutput == 0 && duty != 0;
    FanState(tmr, duty, s.fanBoostActive || boost, if boost then 255 else duty)
  }

  /** `GrillPid::commitFanOutput`. */
  function CommitFan(s: FanState, output: nat, c: FanConfig, scale: nat): (r: FanState)
    requires output <= 100 && 1 <= scale
    ensures s.longPwmTmr < scale ==> r.longPwmTmr < scale
    ensures FanSpeed(output, c) >= c.minFanSpeed ==> r.longPwmTmr == 0
    ensures r.lastBlowerOutput == BlowerDuty(CommandedSpeed(s.longPwmTmr, output, c, scale), c)
    ensures s.lastBlowerOutput == 0 && r.lastBlowerOutput != 0 ==> r.pin == 255 && r.fanBoostActive
    ensures !(s.lastBlowerOutput == 0 && r.lastBlowerOutput != 0) ==>
              r.pin == r.lastBlowerOutput && r.fanBoostActive == s.fanBoostActive
  {
    WriteDuty(s, NextTmr(s.longPwmTmr, output, c, scale), BlowerDuty(CommandedSpeed(s.longPwmTmr, output, c, scale), c))
  }

  /** The start of `doWork`: a boost start lasts one sub-period, after which
      the pin goes back to the last duty written. */
  function EndBoost(s: FanState): (r: FanState)
    ensures !r.fanBoostActive
    ensures s.fanBoostActive ==> r.pin == s.lastBlowerOutput
    ensures !s.fanBoostActive ==> r == s
  {
    if s.fanBoostActive then s.(pin := s.lastBlowerOutput, fanBoostActive := false) else s
  }

  /** A boost start is seen on the pin for exactly one sub-period. */
  lemma BoostLastsOneSubPeriod(s: FanState, output: nat, c: FanConfig, scale: nat)
    requires output <= 100 && 1 <= scale && !s.fanBoostActive
    requires s.lastBlowerOutput == 0 && CommitFan(s, output, c, scale).lastBlowerOutput != 0
    ensures CommitFan(s, output, c, scale).pin == 255
    ensures EndBoost(CommitFan(s, output, c, scale)).pin == CommitFan(s, output, c, scale).lastBlowerOutput
    ensures !EndBoost(CommitFan(s, output, c, scale)).fanBoostActive
  {
  }

  // ---------------------------------------------------------- servo output

  datatype ServoConfig = ServoConfig(minServoPos: Byte, maxServoPos: Byte, servoAnyMax: bool, invertServo: bool)

  /** The servo position (in 10 µs units) that `commitServoOutput` computes. */
  function ServoPosition(output: nat, c: ServoConfig): (r: Byte)
    requires output <= 100
    ensures c.minServoPos <= c.maxServoPos ==> c.minServoPos <= r <= c.maxServoPos
    ensures c.minServoPos <= c.maxServoPos && !c.invertServo && output == 0 ==> r == c.minServoPos
    ensures c.minServoPos <= c.maxServoPos && !c.invertServo && (output == 100 || (c.servoAnyMax && output > 0)) ==>
              r == c.maxServoPos
    ensures c.minServoPos <= c.maxServoPos && c.invertServo && output == 0 ==> r == c.maxServoPos
    ensures c.minServoPos <= c.maxServoPos && c.invertServo && (output == 100 || (c.servoAnyMax && output > 0)) ==>
              r == c.minServoPos
    ensures c.minServoPos <= c.maxServoPos ==>
              var o := if c.servoAnyMax && output > 0 then 100 else output;
              var o' := if c.invertServo then 100 - o else o;
              r == c.minServoPos + (c.maxServoPos - c.minServoPos) * o' / 100
  {
    var o := if c.servoAnyMax && output > 0 then 100 else output;
    var o' := if c.invertServo then 100 - o else o;
    if c.minServoPos <= c.maxServoPos then
      MapPctInRange(o', c.minServoPos, c.maxServoPos);
      U8(MapPct(o', c.minServoPos, c.maxServoPos))
    else
      U8(MapPct(o', c.minServoPos, c.maxServoPos))
  }

  // ----------------------------------------------------- lid-open detector

  /** The lid-open countdown (seconds), whether the pit has reached the
      setpoint since the last reset, and the integral term it scales. */
  datatype LidState = LidState(countdown: UInt16, reached: bool, integral: real)

  /** `(_setPoint - pitTemp) * 100 / _setPoint` in 16-bit `int` arithmetic;
      None where C divides by zero. */
  function DropPercent(setPoint: int, pitTemp: int): (r: Option<int>)
    ensures setPoint == 0 <==> r.None?
  {
    if setPoint == 0 then None
    else Some(I16(CDiv(I16(I16(setPoint - pitTemp) * 100), setPoint)))
  }

  /** While the gap stays within ±327 degrees the product does not
      overflow and the percentage is the truncated true ratio. */
  lemma DropPercentExact(setPoint: int, pitTemp: int)
    requires 0 < setPoint < 0x8000 && 0 <= pitTemp <= setPoint && setPoint - pitTemp <= 327
    ensures DropPercent(setPoint, pitTemp) == Some((setPoint - pitTemp) * 100 / setPoint)
    ensures DropPercent(setPoint, pitTemp).value <= 100
  {
    var gap := setPoint - pitTemp;
    assert I16(gap) == gap;
    assert I16(gap * 100) == gap * 100;
    assert gap * 100 / setPoint <= 100 by {
      assert gap * 100 <= 100 * setPoint;
      DivBound(gap * 100, setPoint, 100);
    }
  }

  /** Beyond that the 16-bit product overflows, which C leaves undefined;
      under two's-complement wrap-around, as avr-gcc compiles it, a
      350-degree drop from a 400-degree setpoint reads as a negative
      percentage. */
  lemma DropPercentWraps()
    ensures DropPercent(400, 50) == Some(-76)
  {
    assert I16(350 * 100) == -30536;
    assert CDiv(-30536, 400) == -76;
  }

  /** Whether the lid-open heuristic fires: the pit is at least `offset`
      percent below the setpoint and the output average is under 90 %. */
  predicate LidOpenTriggers(setPoint: int, pitTemp: int, offset: Byte, outputAvg: int): (r: bool)
    ensures r ==> setPoint != 0 && outputAvg < 90
    ensures 0 < setPoint < 0x8000 && 0 <= pitTemp <= setPoint && setPoint - pitTemp <= 327 ==>
              (r <==> (setPoint - pitTemp) * 100 / setPoint >= offset && outputAvg < 90)
  {
    var drop := DropPercent(setPoint, pitTemp);
    if 0 < setPoint < 0x8000 && 0 <= pitTemp <= setPoint && setPoint - pitTemp <= 327 then
      DropPercentExact(setPoint, pitTemp);
      drop.Some? && drop.value >= offset && outputAvg < 90
    else
      drop.Some? && drop.value >= offset && outputAvg < 90
  }

  /** The lid-open logic of `GrillPid::doWork` for one full period.
      `pitTemp` is the pit temperature cast to `int`, `outputAvg` the
      output average cast to `int`. */
  function LidStep(c: LidState, pitTemp: int, setPoint: int, outputAvg: int,
                   duration: UInt16, offset: Byte, p: Params): (r: LidState)
    ensures pitTemp >= setPoint && U16(duration - c.countdown) > p.lidOpenMinAutoresume ==>
              r == LidState(0, true, if c.reached then c.integral else c.integral * 0.25)
    ensures !(pitTemp >= setPoint && U16(duration - c.countdown) > p.lidOpenMinAutoresume) ==>
              r.integral == c.integral
    ensures r.reached && !c.reached ==> pitTemp >= setPoint && r.countdown == 0
    ensures r.countdown == duration && !r.reached && c.countdown == 0 && duration != 0 ==>
              c.reached && LidOpenTriggers(setPoint, pitTemp, offset, outputAvg)
    ensures c.countdown != 0 && !(pitTemp >= setPoint && U16(duration - c.countdown) > p.lidOpenMinAutoresume) ==>
              r == c.(countdown := U16(c.countdown - CountdownStep(p)))
    ensures c.countdown == 0 && !(pitTemp >= setPoint && duration > p.lidOpenMinAutoresume) ==>
              r == (if c.reached && LidOpenTriggers(setPoint, pitTemp, offset, outputAvg)
                    then LidState(duration, false, c.integral) else c)
  {
    if pitTemp >= setPoint && U16(duration - c.countdown) > p.lidOpenMinAutoresume then
      LidState(0, true, if c.reached then c.integral else c.integral * 0.25)
    else if c.countdown != 0 then
      c.(countdown := U16(c.countdown - CountdownStep(p)))
    else if c.reached && LidOpenTriggers(setPoint, pitTemp, offset, outputAvg) then
      LidState(duration, false, c.integral)
    else c
  }

  /** One full period's view of the lid-open inputs. */
  datatype LidInput = LidInput(pitTemp: int, outputAvg: int)

  function RunLid(c: LidState, inputs: seq<LidInput>, setPoint: int, duration: UInt16, offset: Byte, p: Params): LidState
    decreases |inputs|
  {
    if inputs == [] then c
    else RunLid(LidStep(c, inputs[0].pitTemp, setPoint, inputs[0].outputAvg, duration, offset, p),
                inputs[1..], setPoint, duration, offset, p)
  }

  /** Auto-resume hold-off: after a lid-open event the countdown falls by one
      period's seconds per full period, whatever the pit temperature does,
      for as long as no more than LIDOPEN_MIN_AUTORESUME seconds have
      elapsed; reaching the setpoint cannot cancel the event before then. */
  lemma {:induction false} LidOpenHoldsOff(c: LidState, inputs: seq<LidInput>, setPoint: int,
                                         duration: UInt16, offset: Byte, p: Params)
    requires c.countdown == duration
    requires |inputs| * CountdownStep(p) < duration
    requires (|inputs| - 1) * CountdownStep(p) <= p.lidOpenMinAutoresume
    ensures RunLid(c, inputs, setPoint, duration, offset, p)
            == c.(countdown := duration - |inputs| * CountdownStep(p))
  {
    HoldOff(c, inputs, setPoint, duration, offset, p, 0);
  }

  lemma {:induction false} HoldOff(c: LidState, inputs: seq<LidInput>, setPoint: int,
                                 duration: UInt16, offset: Byte, p: Params, k: nat)
    requires c.countdown == duration - k * CountdownStep(p)
    requires (k + |inputs|) * CountdownStep(p) < duration
    requires |inputs| == 0 || (k + |inputs| - 1) * CountdownStep(p) <= p.lidOpenMinAutoresume
    ensures RunLid(c, inputs, setPoint, duration, offset, p)
            == c.(countdown := duration - (k + |inputs|) * CountdownStep(p))
    decreases |inputs|
  {
    var step := CountdownStep(p);
    if inputs != [] {
      assert k * step <= (k + |inputs| - 1) * step;
      assert U16(duration - c.countdown) == k * step;
      assert (k + 1) * step == k * step + step;
      assert c.countdown >= step;
      var c' := LidStep(c, inputs[0].pitTemp, setPoint, inputs[0].outputAvg, duration, offset, p);
      assert c' == c.(countdown := duration - (k + 1) * step);
      if |inputs| > 1 {
        assert (k + 1 + |inputs[1..]| - 1) * step == (k + |inputs| - 1) * step;
      }
      HoldOff(c', inputs[1..], setPoint, duration, offset, p, k + 1);
    } else {
      assert c.countdown == duration - (k + 0) * step;
    }
  }

  // --------------------------------------------------------------- cadence

  const U32_MOD: nat := 0x1_0000_0000

  /** `millis() - _lastWorkMillis` stored in an `unsigned int`. */
  function Elapsed(now: nat, last: nat): (r: UInt16)
    ensures last <= now < last + U16_MOD ==> r == now - last
  {
    U16(now - last)
  }

  /** The throttle of `doWork`: at least one sub-period has passed. */
  predicate Due(now: nat, last: nat, p: Params): (r: bool)
    requires p.Valid()
    ensures now == last ==> (r <==> p.measurePeriod < p.avgCount)
  {
    Elapsed(now, last) >= p.measurePeriod / p.avgCount
  }

  /** Wrapping subtraction measures the time since the last call even across
      a rollover of the 32-bit millisecond clock, as long as it is under 2^16 ms. */
  lemma ElapsedAcrossRollover(last: nat, k: nat)
    requires last < U32_MOD && k < U16_MOD
    ensures Elapsed((last + k) % U32_MOD, last) == k
  {
    var now := (last + k) % U32_MOD;
    if last + k < U32_MOD {
      assert now == last + k;
    } else {
      assert now == last + k - U32_MOD;
      assert now - last == k - U16_MOD * 0x1_0000;
      ModShift(k, 0x1_0000);
    }
  }

  lemma ModShift(k: int, n: int)
    requires 0 <= k < U16_MOD
    ensures (k - U16_MOD * n) % U16_MOD == k
  {
  }

  /** The period counter `_periodCounter` (an `unsigned char`) after one
      sub-period, and whether the full period is complete. */
  datatype Tick = Tick(counter: Byte, full: bool)

  function TickCounter(counter: Byte, p: Params): (r: Tick)
    ensures r.full <==> U8(counter + 1) >= p.avgCount
    ensures r.full ==> r.counter == 0
    ensures !r.full ==> r.counter == U8(counter + 1)
  {
    var next := U8(counter + 1);
    if next < p.avgCount then Tick(next, false) else Tick(0, true)
  }

  /** The counter starts at 0x80, so the first sub-period completes a
      period exactly when TEMP_AVG_COUNT is at most 0x81; a larger count
      only makes the first period longer. */
  const INITIAL_PERIOD_COUNTER: Byte := 0x80

  lemma FirstCallCompletesPeriod(p: Params)
    requires p.Valid()
    ensures TickCounter(INITIAL_PERIOD_COUNTER, p).full <==> p.avgCount <= 0x81
  {
  }

  /** With TEMP_AVG_COUNT above 255 the 8-bit counter never reaches the
      limit, so no sub-period ever completes a period. */
  lemma CounterNeverReachesWideCount(counter: Byte, p: Params)
    requires p.avgCount > 0xFF
    ensures !TickCounter(counter, p).full
  {
  }

  /** From a fresh period, the first avgCount - 1 sub-periods are partial and
      the avgCount-th completes the period. */
  function RunTicks(counter: Byte, n: nat, p: Params): (r: seq<bool>)
    ensures |r| == n
    decreases n
  {
    if n == 0 then []
    else
      var t := TickCounter(counter, p);
      [t.full] + RunTicks(t.counter, n - 1, p)
  }

  lemma {:induction false} PeriodCycle(k: nat, p: Params)
    requires p.Valid() && k < p.avgCount
    ensures var r := RunTicks(k, p.avgCount - k, p);
            r[|r| - 1] && forall j :: 0 <= j < |r| - 1 ==> !r[j]
    decreases p.avgCount - k
  {
    var t := TickCounter(k, p);
    if k + 1 < p.avgCount {
      assert !t.full && t.counter == k + 1;
      PeriodCycle(k + 1, p);
    } else {
      assert t.full;
    }
  }
}
