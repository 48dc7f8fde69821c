/** Per-probe alarm hysteresis (`ProbeAlarm` in grillpid.cpp).

    Each probe has a low and a high alarm. A side is armed once the
    temperature has been on the safe side of its threshold by at least one
    degree, and it rings once it is armed and the temperature crosses the
    threshold. Within `updateStatus` and `setThreshold` ringing is
    latched: only a lid-open evaluation or a new threshold clears it
    (`silenceAll`, which `calcTemp` calls for a probe without a
    temperature, is not part of this model). */
module Alarm {

  const ALARM_IDX_LOW: nat := 0
  const ALARM_IDX_HIGH: nat := 1

  /** One side of an alarm: its threshold and its two flags. */
  datatype Side = Side(threshold: int, armed: bool, ringing: bool)

  /** The abstract value of a `ProbeAlarm`. */
  datatype Alarms = Alarms(low: Side, high: Side)

  /** Ringing only ever follows arming (the flags are cleared together). */
  predicate Consistent(a: Alarms)
  {
    (a.low.ringing ==> a.low.armed) && (a.high.ringing ==> a.high.armed)
  }

  /** The low side's evaluation of one temperature. */
  function LowStep(s: Side, value: int): (r: Side)
    ensures r.threshold == s.threshold
    ensures r.armed == (s.armed || value >= s.threshold + 1)
    ensures r.ringing == (s.ringing || (s.armed && value < s.threshold))
  {
    if value >= s.threshold + 1 then s.(armed := true)
    else if value < s.threshold && s.armed then s.(ringing := true)
    else s
  }

  /** The high side's evaluation of one temperature. */
  function HighStep(s: Side, value: int): (r: Side)
    ensures r.threshold == s.threshold
    ensures r.armed == (s.armed || value < s.threshold - 1)
    ensures r.ringing == (s.ringing || (s.armed && value >= s.threshold))
  {
    if value < s.threshold - 1 then s.(armed := true)
    else if value >= s.threshold && s.armed then s.(ringing := true)
    else s
  }

  /** `ProbeAlarm::updateStatus`: evaluate both enabled sides, then silence
      both while the lid is open. Arming is never undone here. */
  function StatusAfter(a: Alarms, value: int, lowEnabled: bool, highEnabled: bool, lidOpen: bool): (r: Alarms)
    ensures r.low.threshold == a.low.threshold && r.high.threshold == a.high.threshold
    ensures r.low.armed == (a.low.armed || (lowEnabled && value >= a.low.threshold + 1))
    ensures r.high.armed == (a.high.armed || (highEnabled && value < a.high.threshold - 1))
    ensures r.low.ringing == (!lidOpen && (a.low.ringing || (lowEnabled && a.low.armed && value < a.low.threshold)))
    ensures r.high.ringing == (!lidOpen && (a.high.ringing || (highEnabled && a.high.armed && value >= a.high.threshold)))
    ensures !lowEnabled && !lidOpen ==> r.low == a.low
    ensures !highEnabled && !lidOpen ==> r.high == a.high
    ensures Consistent(a) ==> Consistent(r)
  {
    var low := if lowEnabled then LowStep(a.low, value) else a.low;
    var high := if highEnabled then HighStep(a.high, value) else a.high;
    if lidOpen then Alarms(low.(ringing := false), high.(ringing := false))
    else Alarms(low, high)
  }

  /** `ProbeAlarm::setThreshold`: clear that side's flags; a value of 0 only
      silences and keeps the stored threshold. */
  function ThresholdSet(a: Alarms, idx: nat, value: int): (r: Alarms)
    requires idx == ALARM_IDX_LOW || idx == ALARM_IDX_HIGH
    ensures var s := if idx == ALARM_IDX_LOW then r.low else r.high;
            var was := if idx == ALARM_IDX_LOW then a.low else a.high;
            !s.armed && !s.ringing && s.threshold == (if value == 0 then was.threshold else value)
    ensures idx == ALARM_IDX_LOW ==> r.high == a.high
    ensures idx == ALARM_IDX_HIGH ==> r.low == a.low
    ensures Consistent(a) ==> Consistent(r)
  {
    var side := if idx == ALARM_IDX_LOW then a.low else a.high;
    var cleared := Side(if value == 0 then side.threshold else value, false, false);
    if idx == ALARM_IDX_LOW then a.(low := cleared) else a.(high := cleared)
  }

  /** One evaluation: the probe's temperature and whether the lid is open. */
  datatype Reading = Reading(value: int, lidOpen: bool)

  /** Successive evaluations with fixed thresholds and enable flags. */
  function Run(a: Alarms, rs: seq<Reading>, lowEnabled: bool, highEnabled: bool): (r: Alarms)
    ensures r.low.threshold == a.low.threshold && r.high.threshold == a.high.threshold
    decreases |rs|
  {
    if rs == [] then a
    else Run(StatusAfter(a, rs[0].value, lowEnabled, highEnabled, rs[0].lidOpen), rs[1..], lowEnabled, highEnabled)
  }

  /** A low alarm that rings at the end of a run either rang already, or some
      reading fell below the threshold after the side was armed, either
      before the run or by an earlier reading at least one degree above. */
  lemma {:induction false} LowRingCause(a: Alarms, rs: seq<Reading>, lowEnabled: bool, highEnabled: bool)
    ensures var t := a.low.threshold;
      Run(a, rs, lowEnabled, highEnabled).low.ringing ==>
        a.low.ringing ||
        exists j :: 0 <= j < |rs| && rs[j].value < t &&
          (a.low.armed || exists i :: 0 <= i < j && rs[i].value >= t + 1)
    decreases |rs|
  {
    var t := a.low.threshold;
    if rs != [] && Run(a, rs, lowEnabled, highEnabled).low.ringing {
      var a' := StatusAfter(a, rs[0].value, lowEnabled, highEnabled, rs[0].lidOpen);
      var rest := rs[1..];
      LowRingCause(a', rest, lowEnabled, highEnabled);
      if a'.low.ringing {
        if !a.low.ringing {
          assert rs[0].value < t && a.low.armed;
        }
      } else {
        var j' :| 0 <= j' < |rest| && rest[j'].value < t &&
          (a'.low.armed || exists i :: 0 <= i < j' && rest[i].value >= t + 1);
        assert rs[j' + 1] == rest[j'];
        if !a.low.armed {
          if a'.low.armed {
            assert rs[0].value >= t + 1;
          } else {
            var i' :| 0 <= i' < j' && rest[i'].value >= t + 1;
            assert rs[i' + 1] == rest[i'];
          }
        }
      }
    }
  }

  /** The same for the high alarm: it rings only after a reading at least
      one degree below the threshold was followed by one at or above it. */
  lemma {:induction false} HighRingCause(a: Alarms, rs: seq<Reading>, lowEnabled: bool, highEnabled: bool)
    ensures var t := a.high.threshold;
      Run(a, rs, lowEnabled, highEnabled).high.ringing ==>
        a.high.ringing ||
        exists j :: 0 <= j < |rs| && rs[j].value >= t &&
          (a.high.armed || exists i :: 0 <= i < j && rs[i].value < t - 1)
    decreases |rs|
  {
    var t := a.high.threshold;
    if rs != [] && Run(a, rs, lowEnabled, highEnabled).high.ringing {
      var a' := StatusAfter(a, rs[0].value, lowEnabled, highEnabled, rs[0].lidOpen);
      var rest := rs[1..];
      HighRingCause(a', rest, lowEnabled, highEnabled);
      if a'.high.ringing {
        if !a.high.ringing {
          assert rs[0].value >= t && a.high.armed;
        }
      } else {
        var j' :| 0 <= j' < |rest| && rest[j'].value >= t &&
          (a'.high.armed || exists i :: 0 <= i < j' && rest[i].value < t - 1);
        assert rs[j' + 1] == rest[j'];
        if !a.high.armed {
          if a'.high.armed {
            assert rs[0].value < t - 1;
          } else {
            var i' :| 0 <= i' < j' && rest[i'].value < t - 1;
            assert rs[i' + 1] == rest[i'];
          }
        }
      }
    }
  }

  /** Once ringing, an alarm keeps ringing through any run of readings taken
      with the lid closed, whatever the temperature does. */
  lemma {:induction false} RingingLatches(a: Alarms, rs: seq<Reading>, lowEnabled: bool, highEnabled: bool)
    requires forall k :: 0 <= k < |rs| ==> !rs[k].lidOpen
    ensures a.low.ringing ==> Run(a, rs, lowEnabled, highEnabled).low.ringing
    ensures a.high.ringing ==> Run(a, rs, lowEnabled, highEnabled).high.ringing
    decreases |rs|
  {
    if rs != [] {
      RingingLatches(StatusAfter(a, rs[0].value, lowEnabled, highEnabled, rs[0].lidOpen), rs[1..], lowEnabled, highEnabled);
    }
  }

  /** The alarm of one probe, with its three two-element arrays indexed by
      ALARM_IDX_LOW and ALARM_IDX_HIGH. */
  class ProbeAlarm {
    const Thresholds: array<int>
    const Armed: array<bool>
    const Ringing: array<bool>

    ghost predicate Valid()
      reads this
    {
      Thresholds.Length == 2 && Armed.Length == 2 && Ringing.Length == 2 && Armed != Ringing
    }

    /** The abstract value of the arrays. */
    function State(): Alarms
      reads this, Thresholds, Armed, Ringing
      requires Valid()
    {
      Alarms(Side(Thresholds[ALARM_IDX_LOW], Armed[ALARM_IDX_LOW], Ringing[ALARM_IDX_LOW]),
             Side(Thresholds[ALARM_IDX_HIGH], Armed[ALARM_IDX_HIGH], Ringing[ALARM_IDX_HIGH]))
    }

    /** A statically allocated alarm: zero thresholds, no flags set. */
    constructor ()
      ensures Valid() && fresh(Thresholds) && fresh(Armed) && fresh(Ringing)
      ensures State() == Alarms(Side(0, false, false), Side(0, false, false))
    {
      Thresholds := new int[2](_ => 0);
      Armed := new bool[2](_ => false);
      Ringing := new bool[2](_ => false);
    }

    method UpdateStatus(value: int, lowEnabled: bool, highEnabled: bool, lidOpen: bool)
      requires Valid()
      modifies Armed, Ringing
      ensures State() == StatusAfter(old(State()), value, lowEnabled, highEnabled, lidOpen)
    {
      if lowEnabled {
        if value >= Thresholds[ALARM_IDX_LOW] + 1 {
          Armed[ALARM_IDX_LOW] := true;
        } else if value < Thresholds[ALARM_IDX_LOW] && Armed[ALARM_IDX_LOW] {
          Ringing[ALARM_IDX_LOW] := true;
        }
      }
      if highEnabled {
        if value < Thresholds[ALARM_IDX_HIGH] - 1 {
          Armed[ALARM_IDX_HIGH] := true;
        } else if value >= Thresholds[ALARM_IDX_HIGH] && Armed[ALARM_IDX_HIGH] {
          Ringing[ALARM_IDX_HIGH] := true;
        }
      }
      if lidOpen {
        Ringing[ALARM_IDX_LOW] := false;
        Ringing[ALARM_IDX_HIGH] := false;
      }
    }

    method SetThreshold(idx: nat, value: int)
      requires Valid()
      requires idx == ALARM_IDX_LOW || idx == ALARM_IDX_HIGH
      modifies Thresholds, Armed, Ringing
      ensures State() == ThresholdSet(old(State()), idx, value)
    {
      Armed[idx] := false;
      Ringing[idx] := false;
      if value == 0 {
        return;
      }
      Thresholds[idx] := value;
    }

    method SetLow(value: int)
      requires Valid()
      modifies Thresholds, Armed, Ringing
      ensures State() == ThresholdSet(old(State()), ALARM_IDX_LOW, value)
    {
      SetThreshold(ALARM_IDX_LOW, value);
    }

    method SetHigh(value: int)
      requires Valid()
      modifies Thresholds, Armed, Ringing
      ensures State() == ThresholdSet(old(State()), ALARM_IDX_HIGH, value)
    {
      SetThreshold(ALARM_IDX_HIGH, value);
    }
  }
}
