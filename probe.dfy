/** ADC sample validation and averaging for one temperature probe
    (`TempProbe` in grillpid.cpp).

    Every sub-period a probe takes 4^B raw 10-bit samples (B oversample
    bits) and folds their scaled sum into a window accumulator; at the end
    of the period the window's mean becomes the temperature. A railed
    sample, a zero, or an outlier more than 2^(6+B) away from the running
    mean poisons the whole window: its accumulator drops to zero and stays
    there until the window is finalised. */
module Probe {
  import opened CInt

  /** A raw sample at or above this value is treated as railed. */
  const ADC_RAILED: nat := 1023

  /** The largest value `readTemp` can hand to `addAdcValue`. */
  function MaxOversampled(bits: nat): nat
  {
    1022 * Pow2(bits)
  }

  /** The outlier distance `1 << (6 + TEMP_OVERSAMPLE_BITS)`: 1/16 of the
      oversampled full scale. */
  function DiffLimit(bits: nat): nat
  {
    Pow2(6 + bits)
  }

  lemma Pow2Small(bits: nat)
    requires bits <= 3
    ensures Pow2(bits) <= 8
    ensures DiffLimit(bits) == 64 * Pow2(bits)
    ensures MaxOversampled(bits) <= 8176
  {
    if bits == 0 {
    } else if bits == 1 {
    } else if bits == 2 {
    } else {
      assert bits == 3;
    }
  }

  /** The accumulator and the number of values folded into it since the
      window was last finalised. */
  datatype Window = Window(acc: nat, count: nat)

  /** What `addAdcValue` keeps true: a non-empty window holds at most
      `count` oversampled values. (An empty window's accumulator is stale:
      `calcTemp` leaves it, and the next value overwrites it.) */
  predicate Bounded(w: Window, bits: nat)
  {
    w.count == 0 || w.acc <= w.count * MaxOversampled(bits)
  }

  lemma MeanBound(w: Window, bits: nat)
    requires Bounded(w, bits) && 0 < w.count
    ensures w.acc / w.count <= MaxOversampled(bits)
  {
    DivBound(w.acc, w.count, MaxOversampled(bits));
  }

  lemma MulLtCancel(a: nat, c: nat, b: nat)
    requires 0 < b && a * b < c * b
    ensures a < c
  {
  }

  lemma MulDivCancel(j: nat, x: nat)
    requires 0 < j
    ensures (j * x) / j == x
  {
    var q := (j * x) / j;
    assert q * j <= j * x < q * j + j;
    assert j * x == x * j;
    assert (x + 1) * j == x * j + j && (q + 1) * j == q * j + j;
    MulLtCancel(q, x + 1, j);
    MulLtCancel(x, q + 1, j);
  }

  lemma DivLeSelf(a: nat, b: nat)
    requires 0 < b
    ensures a / b <= a
  {
    DivBound(a, b, a);
  }

  /** `DIFFMAX(x, y, d)`, which is `(x - y + d) <= (d * 2U)` evaluated in
      16-bit unsigned arithmetic. */
  predicate DiffMax(x: int, y: int, d: int): (r: bool)
    ensures x == y && 0 <= 2 * d < U16_MOD ==> r
  {
    U16(x - y + d) <= U16(d * 2)
  }

  /** With operands small enough, the wrapping test is the window test
      |x - y| <= d: the wrap-around turns values below the window into
      large ones. */
  lemma DiffMaxIsWindow(x: nat, y: nat, d: nat)
    requires x + d < U16_MOD && y + d < U16_MOD && 2 * d < U16_MOD
    ensures DiffMax(x, y, d) <==> y - d <= x <= y + d
  {
    var v := x - y + d;
    if v < 0 {
      assert U16(v) == v + U16_MOD;
    } else {
      assert U16(v) == v;
    }
  }

  /** Without that bound the wrapping test lets a reading through that is
      far from a (large) running mean. */
  lemma DiffMaxWrapsForLargeMean()
    ensures DiffMax(1, 0xFFFF, 64) && !(0xFFFF - 64 <= 1)
  {
    assert U16(1 - 0xFFFF + 64) == 66;
  }

  /** `TempProbe::addAdcValue`. */
  function AddAdc(w: Window, x: UInt16, bits: nat): (r: Window)
    ensures r.count == w.count + 1
    ensures x == 0 ==> r.acc == 0
    ensures x != 0 && w.count == 0 ==> r.acc == x
    ensures w.count != 0 && w.acc == 0 ==> r.acc == 0
    ensures r.acc == 0 || r.acc == x || r.acc == w.acc + x
    ensures x <= MaxOversampled(bits) && Bounded(w, bits) ==> Bounded(r, bits)
  {
    var acc :=
      if x == 0 then 0
      else if w.count == 0 then x
      else if !DiffMax(x, w.acc / w.count, DiffLimit(bits)) then 0
      else if w.acc != 0 then w.acc + x
      else w.acc;
    assert (w.count + 1) * MaxOversampled(bits) == w.count * MaxOversampled(bits) + MaxOversampled(bits);
    Window(acc, w.count + 1)
  }

  /** A reading more than 2^(6+B) away from the running mean empties the
      accumulator; one within that distance is added to it (unless the
      window is already poisoned). */
  lemma AddAdcOutlier(w: Window, x: UInt16, bits: nat)
    requires bits <= 3 && Bounded(w, bits)
    requires 0 < w.count && 0 < x <= MaxOversampled(bits)
    ensures var m := w.acc / w.count;
            var d := DiffLimit(bits);
            (x < m - d || m + d < x) ==> AddAdc(w, x, bits).acc == 0
    ensures var m := w.acc / w.count;
            var d := DiffLimit(bits);
            m - d <= x <= m + d ==> AddAdc(w, x, bits).acc == (if w.acc == 0 then 0 else w.acc + x)
  {
    MeanBound(w, bits);
    Pow2Small(bits);
    DiffMaxIsWindow(x, w.acc / w.count, DiffLimit(bits));
  }

  /** Folding successive oversampled values into a window. */
  function RunAdc(w: Window, xs: seq<UInt16>, bits: nat): (r: Window)
    ensures r.count == w.count + |xs|
    decreases |xs|
  {
    if xs == [] then w else RunAdc(AddAdc(w, xs[0], bits), xs[1..], bits)
  }

  lemma {:induction false} RunAdcAppend(w: Window, xs: seq<UInt16>, ys: seq<UInt16>, bits: nat)
    ensures RunAdc(w, xs + ys, bits) == RunAdc(RunAdc(w, xs, bits), ys, bits)
    decreases |xs|
  {
    if xs == [] {
      assert xs + ys == ys;
    } else {
      assert (xs + ys)[1..] == xs[1..] + ys;
      RunAdcAppend(AddAdc(w, xs[0], bits), xs[1..], ys, bits);
    }
  }

  /** A poisoned window stays poisoned until it is finalised. */
  lemma {:induction false} StickyZero(w: Window, xs: seq<UInt16>, bits: nat)
    requires 0 < w.count && w.acc == 0
    ensures RunAdc(w, xs, bits).acc == 0
    decreases |xs|
  {
    if xs != [] {
      StickyZero(AddAdc(w, xs[0], bits), xs[1..], bits);
    }
  }

  /** One rejected sub-period anywhere in a window leaves the window empty. */
  lemma RejectedWindow(w: Window, xs: seq<UInt16>, k: nat, bits: nat)
    requires k < |xs| && xs[k] == 0
    ensures RunAdc(w, xs, bits).acc == 0
  {
    assert xs == xs[..k] + ([xs[k]] + xs[k + 1..]);
    RunAdcAppend(w, xs[..k], [xs[k]] + xs[k + 1..], bits);
    var before := RunAdc(w, xs[..k], bits);
    RunAdcAppend(before, [xs[k]], xs[k + 1..], bits);
    StickyZero(RunAdc(before, [xs[k]], bits), xs[k + 1..], bits);
  }

  /** Adding the running mean itself to a window of j copies of it. */
  lemma AddSteady(j: nat, x: UInt16, bits: nat)
    requires 0 < j && 0 < x && bits <= 3
    ensures AddAdc(Window(j * x, j), x, bits) == Window((j + 1) * x, j + 1)
  {
    MulDivCancel(j, x);
    Pow2Small(bits);
    var d := DiffLimit(bits);
    assert U16(x - x + d) == d && U16(d * 2) == d * 2;
    assert j * x != 0;
    assert (j + 1) * x == j * x + x;
  }

  /** A window fed the same valid value throughout accumulates exactly that
      many copies of it. */
  lemma {:induction false} SteadyWindow(j: nat, x: UInt16, xs: seq<UInt16>, bits: nat)
    requires 0 < x && 0 < j && bits <= 3
    requires forall k :: 0 <= k < |xs| ==> xs[k] == x
    ensures RunAdc(Window(j * x, j), xs, bits) == Window((j + |xs|) * x, j + |xs|)
    decreases |xs|
  {
    if xs != [] {
      AddSteady(j, x, bits);
      SteadyWindow(j + 1, x, xs[1..], bits);
    }
  }

  /** Whether a raw sample invalidates its sub-period. */
  predicate Railed(adc: int)
  {
    adc == 0 || adc >= ADC_RAILED
  }

  predicate AnyRailed(s: seq<UInt16>)
  {
    exists k :: 0 <= k < |s| && Railed(s[k])
  }

  function Sum(s: seq<UInt16>): nat
  {
    if s == [] then 0 else Sum(s[..|s| - 1]) + s[|s| - 1]
  }

  lemma {:induction false} SumBounds(s: seq<UInt16>)
    requires forall k :: 0 <= k < |s| ==> !Railed(s[k])
    ensures |s| <= Sum(s) <= 1022 * |s|
    decreases |s|
  {
    if s != [] {
      var init := s[..|s| - 1];
      assert forall k :: 0 <= k < |init| ==> init[k] == s[k];
      SumBounds(init);
    }
  }

  /** `x >> bits` on an `unsigned int`. */
  function ShiftRight(x: UInt16, bits: nat): (r: UInt16)
    ensures r <= x
    ensures r * Pow2(bits) <= x < (r + 1) * Pow2(bits)
  {
    var scale := Pow2(bits);
    var q := NatDiv(x, scale);
    DivLeSelf(x, scale);
    q
  }

  /** The value one sub-period of `readTemp` contributes: 0 when any of its
      4^B samples is railed, else their 16-bit sum shifted right by B. */
  function Oversample(s: seq<UInt16>, bits: nat): (r: UInt16)
    ensures AnyRailed(s) ==> r == 0
    ensures r <= U16(Sum(s))
  {
    if AnyRailed(s) then 0 else ShiftRight(U16(Sum(s)), bits)
  }

  /** A sub-period contributes zero exactly when one of its samples is
      railed; otherwise at most 1022 * 2^B, and the 16-bit running sum of
      its samples never wraps. */
  lemma OversampleRange(s: seq<UInt16>, bits: nat)
    requires bits <= 3 && |s| == Pow4(bits)
    ensures Oversample(s, bits) == 0 <==> AnyRailed(s)
    ensures Oversample(s, bits) <= MaxOversampled(bits)
    ensures !AnyRailed(s) ==> Sum(s) < U16_MOD && Oversample(s, bits) == Sum(s) / Pow2(bits)
  {
    if !AnyRailed(s) {
      SumBounds(s);
      Pow2Small(bits);
      var p := Pow2(bits);
      assert Sum(s) <= 1022 * p * p;
      assert 1022 * p * p <= 1022 * 64 by {
        assert p * p <= 8 * 8 by {
          assert p * p <= 8 * p;
        }
      }
      assert Sum(s) / p <= 1022 * p by {
        assert (1022 * p) * p == 1022 * p * p;
        DivBound(Sum(s), p, 1022 * p);
      }
      assert Sum(s) / p >= 1 by {
        assert Sum(s) >= p * p >= p;
      }
    }
  }

  /** A window and the temperature it last produced (None: no temperature). */
  datatype Estimate = Estimate(window: Window, temperature: Option<real>)

  /** The integer part of `TempProbe::calcTemp`: with a non-empty window
      take its mean and restart the count; in units 'A' the mean itself is
      the temperature, a zero mean is no temperature, and otherwise the
      (floating-point) conversion of the mean decides. */
  function Finalize(e: Estimate, units: char, convert: nat -> Option<real>): (r: Estimate)
    ensures e.window.count == 0 ==> r == e
    ensures e.window.count != 0 ==> r.window == Window(e.window.acc, 0)
    ensures e.window.count != 0 && units == 'A' ==>
              r.temperature == Some((e.window.acc / e.window.count) as real)
    ensures e.window.count != 0 && units != 'A' && e.window.acc / e.window.count == 0 ==>
              r.temperature == None
    ensures e.window.count != 0 && units != 'A' && e.window.acc / e.window.count != 0 ==>
              r.temperature == convert(e.window.acc / e.window.count)
  {
    if e.window.count == 0 then e
    else
      var mean := e.window.acc / e.window.count;
      var w := Window(e.window.acc, 0);
      if units == 'A' then Estimate(w, Some(mean as real))
      else if mean == 0 then Estimate(w, None)
      else Estimate(w, convert(mean))
  }

  /** Round trip in raw units: a window of valid sub-periods that all read
      the oversampled value x yields temperature x. */
  lemma RawRoundTrip(acc: nat, x: UInt16, xs: seq<UInt16>, bits: nat, temp: Option<real>, convert: nat -> Option<real>)
    requires 0 < x && 0 < |xs| && bits <= 3
    requires forall k :: 0 <= k < |xs| ==> xs[k] == x
    ensures Finalize(Estimate(RunAdc(Window(acc, 0), xs, bits), temp), 'A', convert).temperature == Some(x as real)
  {
    assert AddAdc(Window(acc, 0), xs[0], bits) == Window(1 * x, 1);
    SteadyWindow(1, x, xs[1..], bits);
    MulDivCancel(|xs|, x);
  }

  /** Outside raw units, a window with one rejected sub-period produces no
      temperature. */
  lemma RejectedWindowHasNoTemperature(w: Window, xs: seq<UInt16>, k: nat, bits: nat, temp: Option<real>, units: char, convert: nat -> Option<real>)
    requires k < |xs| && xs[k] == 0 && units != 'A'
    ensures Finalize(Estimate(RunAdc(w, xs, bits), temp), units, convert).temperature == None
  {
    RejectedWindow(w, xs, k, bits);
  }

  /** One probe's sampling state. Only `bits` (TEMP_OVERSAMPLE_BITS) is
      fixed; the rest is updated in place every (sub-)period. */
  class TempProbe {
    const bits: nat
    var probeType: Byte
    var accumulator: nat
    var accumulatedCount: nat
    var temperature: Option<real>

    ghost predicate Valid()
      reads this
    {
      bits <= 3 && Bounded(Window(accumulator, accumulatedCount), bits)
    }

    function CurrentWindow(): Window
      reads this
    {
      Window(accumulator, accumulatedCount)
    }

    function CurrentEstimate(): Estimate
      reads this
    {
      Estimate(CurrentWindow(), temperature)
    }

    /** A statically allocated probe: everything zero, no temperature. */
    constructor (oversampleBits: nat)
      requires oversampleBits <= 3
      ensures Valid() && bits == oversampleBits
      ensures probeType == 0 && CurrentWindow() == Window(0, 0) && temperature == None
    {
      bits := oversampleBits;
      probeType := 0;
      accumulator, accumulatedCount := 0, 0;
      temperature := None;
    }

    method SetProbeType(t: Byte)
      modifies this
      ensures probeType == t && CurrentWindow() == Window(0, 0) && temperature == None
      ensures old(Valid()) ==> Valid()
    {
      probeType := t;
      accumulator := 0;
      accumulatedCount := 0;
      temperature := None;
    }

    method AddAdcValue(analogTemp: UInt16)
      requires Valid()
      modifies this
      ensures CurrentWindow() == AddAdc(old(CurrentWindow()), analogTemp, bits)
      ensures probeType == old(probeType) && temperature == old(temperature)
      ensures analogTemp <= MaxOversampled(bits) ==> Valid()
    {
      if analogTemp == 0 {
        accumulator := 0;
      } else if accumulatedCount == 0 {
        accumulator := analogTemp;
      } else if !DiffMax(analogTemp, accumulator / accumulatedCount, DiffLimit(bits)) {
        accumulator := 0;
      } else if accumulator != 0 {
        accumulator := accumulator + analogTemp;
      }
      accumulatedCount := accumulatedCount + 1;
    }

    /** `TempProbe::readTemp`, given the 4^B values `analogRead` returns. */
    method ReadTemp(samples: seq<UInt16>)
      requires Valid() && |samples| == Pow4(bits)
      modifies this
      ensures Valid()
      ensures CurrentWindow() == AddAdc(old(CurrentWindow()), Oversample(samples, bits), bits)
      ensures probeType == old(probeType) && temperature == old(temperature)
    {
      var n := Pow4(bits);
      var oversampledAdc: UInt16 := 0;
      var i := 0;
      while i < n
        invariant 0 <= i <= n
        invariant forall k :: 0 <= k < i ==> !Railed(samples[k])
        invariant oversampledAdc == Sum(samples[..i]) <= 1022 * i
        invariant CurrentWindow() == old(CurrentWindow()) && probeType == old(probeType) && temperature == old(temperature)
      {
        var adc := samples[i];
        if adc == 0 || adc >= ADC_RAILED {
          assert AnyRailed(samples);
          AddAdcValue(0);
          return;
        }
        assert samples[..i + 1][..i] == samples[..i];
        SumBounds(samples[..i + 1]);
        OversampleRange(samples, bits);
        assert Sum(samples[..i + 1]) <= 1022 * n <= U16_MOD by {
          Pow2Small(bits);
          assert n == Pow2(bits) * Pow2(bits) <= 64 by {
            assert Pow2(bits) * Pow2(bits) <= 8 * Pow2(bits);
          }
        }
        oversampledAdc := U16(oversampledAdc + adc);
        i := i + 1;
      }
      assert samples[..n] == samples;
      OversampleRange(samples, bits);
      oversampledAdc := oversampledAdc / Pow2(bits);
      AddAdcValue(oversampledAdc);
    }

    /** The integer skeleton of `TempProbe::calcTemp`; `convert` stands for
        the floating-point conversion of a mean ADC value. */
    method CalcTemp(units: char, convert: nat -> Option<real>)
      requires Valid()
      modifies this
      ensures Valid()
      ensures CurrentEstimate() == Finalize(old(CurrentEstimate()), units, convert)
      ensures probeType == old(probeType)
    {
      if accumulatedCount != 0 {
        var adcVal := accumulator / accumulatedCount;
        accumulatedCount := 0;
        if units == 'A' {
          temperature := Some(adcVal as real);
          return;
        }
        if adcVal != 0 {
          temperature := convert(adcVal);
        } else {
          temperature := None;
        }
      }
    }
  }
}
