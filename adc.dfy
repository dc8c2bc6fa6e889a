/** The per-tick current pipeline of firmware/src/adc/adc.c: offset
    calibration by exponential moving average, the common-mode-rejecting
    blend of the three phase currents, the phase-order-aware accessor, the
    integer temperature estimate and the split of the overcurrent DAC value.
    Single-precision arithmetic is modelled over `real`. */
module Adc {
  import opened CInt

  /** The firmware's FloatTriplet. */
  datatype Triplet = Triplet(A: real, B: real, C: real)

  const ZeroTriplet: Triplet := Triplet(0.0, 0.0, 0.0)

  function Sum(t: Triplet): real
  {
    t.A + t.B + t.C
  }

  /** Phases B and C exchanged, A kept. */
  function SwapBC(t: Triplet): Triplet
  {
    Triplet(t.A, t.C, t.B)
  }

  /** The firmware's ADCConfig: phase offsets, overcurrent limit, offset filter
      time constant and the filter gain derived from it. */
  datatype AdcConfig = AdcConfig(
    phaseOffset: Triplet,
    phaseLimit: real,
    phaseOffsetTau: real,
    phaseOffsetK: real)

  /** The controller's operating state, as far as the pipeline tells states apart. */
  datatype ControllerState = Calibrate | ClControl | Other

  /** The sequencer result slots the update reads: the temperature proxy
      (slot 2), the start-of-period offset samples (slots 6, 8, 10) and the
      mid-period current samples (slots 14, 16, 18). */
  datatype Conversions = Conversions(
    vptat: UInt16,
    offsetA: UInt16, offsetB: UInt16, offsetC: UInt16,
    currentA: UInt16, currentB: UInt16, currentC: UInt16)

  // ---------------------------------------------------------------------
  // Offset calibration

  predicate Between(x: real, a: real, b: real)
  {
    (a <= x <= b) || (b <= x <= a)
  }

  function RAbs(x: real): real
  {
    if x < 0.0 then -x else x
  }

  /** One exponential-moving-average step of an offset toward a sample. The
      distance to the sample shrinks by the factor 1 - k, and for a gain in
      [0, 1] the new offset lies between the old offset and the sample. */
  function EmaStep(offset: real, sample: real, k: real): (r: real)
    ensures sample - r == (1.0 - k) * (sample - offset)
    ensures 0.0 <= k <= 1.0 ==> Between(r, offset, sample)
  {
    var g := sample - offset;
    ScaledStep(g, k);
    offset + g * k
  }

  /** A fraction `k` of a gap `g` leaves `(1 - k) * g` of it; for `k` in
      [0, 1] the fraction lies between 0 and `g`. */
  lemma ScaledStep(g: real, k: real)
    ensures g - g * k == (1.0 - k) * g
    ensures 0.0 <= k <= 1.0 ==> Between(g * k, 0.0, g)
  {
    if 0.0 <= k <= 1.0 {
      if g >= 0.0 {
        MulNonNegative(g, k);
        MulNonNegative(g, 1.0 - k);
      } else {
        MulNonNegative(-g, k);
        MulNonNegative(-g, 1.0 - k);
      }
    }
  }

  lemma MulNonNegative(x: real, y: real)
    requires 0.0 <= x && 0.0 <= y
    ensures 0.0 <= x * y
  {
  }

  /** The offsets after one calibration tick: each phase moves toward its
      start-of-period sample converted to amperes. */
  function CalibratedOffsets(offset: Triplet, conv: Conversions, scale: real, k: real): (r: Triplet)
    ensures conv.offsetA as real * scale - r.A == (1.0 - k) * (conv.offsetA as real * scale - offset.A)
    ensures conv.offsetB as real * scale - r.B == (1.0 - k) * (conv.offsetB as real * scale - offset.B)
    ensures conv.offsetC as real * scale - r.C == (1.0 - k) * (conv.offsetC as real * scale - offset.C)
    ensures 0.0 <= k <= 1.0 ==>
              Between(r.A, offset.A, conv.offsetA as real * scale) &&
              Between(r.B, offset.B, conv.offsetB as real * scale) &&
              Between(r.C, offset.C, conv.offsetC as real * scale)
  {
    Triplet(
      EmaStep(offset.A, conv.offsetA as real * scale, k),
      EmaStep(offset.B, conv.offsetB as real * scale, k),
      EmaStep(offset.C, conv.offsetC as real * scale, k))
  }

  /** The offset after `n` calibration ticks that all see the same sample. */
  function CalibrationTicks(offset: real, sample: real, k: real, n: nat): real
  {
    if n == 0 then offset else EmaStep(CalibrationTicks(offset, sample, k, n - 1), sample, k)
  }

  function Pow(x: real, n: nat): real
  {
    if n == 0 then 1.0 else x * Pow(x, n - 1)
  }

  lemma {:induction false} PowPositive(x: real, n: nat)
    requires 0.0 < x
    ensures 0.0 < Pow(x, n)
  {
    if n > 0 {
      PowPositive(x, n - 1);
    }
  }

  /** After `n` ticks on a constant sample the remaining gap to the sample is
      the initial gap times (1 - k)^n. */
  lemma {:induction false} CalibrationTicksGap(offset: real, sample: real, k: real, n: nat)
    ensures sample - CalibrationTicks(offset, sample, k, n) == Pow(1.0 - k, n) * (sample - offset)
  {
    if n > 0 {
      CalibrationTicksGap(offset, sample, k, n - 1);
      var prev := CalibrationTicks(offset, sample, k, n - 1);
      assert CalibrationTicks(offset, sample, k, n) == EmaStep(prev, sample, k);
      MulAssociative(1.0 - k, Pow(1.0 - k, n - 1), sample - offset);
    }
  }

  lemma MulAssociative(a: real, b: real, c: real)
    ensures a * (b * c) == (a * b) * c
  {
  }

  /** With a gain strictly between 0 and 1 and an offset away from the
      sample, every calibration tick brings the offset strictly closer to the
      sample without ever reaching it, and each tick's change is 1 - k times
      the previous tick's, so strictly smaller in magnitude. */
  lemma CalibrationConverges(offset: real, sample: real, k: real, n: nat)
    requires 0.0 < k < 1.0 && offset != sample
    ensures 0.0 < RAbs(sample - CalibrationTicks(offset, sample, k, n + 1))
                < RAbs(sample - CalibrationTicks(offset, sample, k, n))
    ensures CalibrationTicks(offset, sample, k, n + 2) - CalibrationTicks(offset, sample, k, n + 1)
         == (1.0 - k) * (CalibrationTicks(offset, sample, k, n + 1) - CalibrationTicks(offset, sample, k, n))
    ensures RAbs(CalibrationTicks(offset, sample, k, n + 2) - CalibrationTicks(offset, sample, k, n + 1))
          < RAbs(CalibrationTicks(offset, sample, k, n + 1) - CalibrationTicks(offset, sample, k, n))
  {
    var x := CalibrationTicks(offset, sample, k, n);
    assert CalibrationTicks(offset, sample, k, n + 1) == EmaStep(x, sample, k);
    assert CalibrationTicks(offset, sample, k, n + 2) == EmaStep(EmaStep(x, sample, k), sample, k);
    TicksNeverReach(offset, sample, k, n);
    TickCloser(x, sample, k);
    DeltaShrinks(x, sample, k);
    var c := EmaStep(x, sample, k) - x;
    assert c == k * (sample - x);
    NonZeroProduct(k, sample - x);
    GapShrinks(c, k);
  }

  /** The offset converges to a constant sample: for a gain strictly between
      0 and 1, any tolerance is met after finitely many calibration ticks. */
  lemma CalibrationWithin(offset: real, sample: real, k: real, eps: real)
    requires 0.0 < k < 1.0 && eps > 0.0
    ensures exists n: nat :: RAbs(sample - CalibrationTicks(offset, sample, k, n)) < eps
  {
    var n := SmallPower(1.0 - k, RAbs(sample - offset), eps);
    CalibrationTicksGap(offset, sample, k, n);
    PowPositive(1.0 - k, n);
    RAbsScale(Pow(1.0 - k, n), sample - offset);
    assert RAbs(sample - CalibrationTicks(offset, sample, k, n)) < eps;
  }

  /** Powers of a ratio below 1 eventually bring any gap below any tolerance:
      with q = 1 / (1 + h), (1 + h)^n >= 1 + n * h outgrows g / eps. */
  lemma SmallPower(q: real, g: real, eps: real) returns (n: nat)
    requires 0.0 < q < 1.0 && g >= 0.0 && eps > 0.0
    ensures Pow(q, n) * g < eps
  {
    var h := Reciprocal(q);
    n := LargePower(h, g, eps);
    PowReciprocal(q, 1.0 + h, n);
    PowPositive(q, n);
    MulStrict(Pow(q, n), g, eps, Pow(1.0 + h, n));
  }

  /** A ratio below 1 is the reciprocal of 1 + h for some h > 0. */
  lemma Reciprocal(q: real) returns (h: real)
    requires 0.0 < q < 1.0
    ensures h > 0.0 && q * (1.0 + h) == 1.0
  {
    h := (1.0 - q) / q;
  }

  lemma PowReciprocal(q: real, r: real, n: nat)
    requires q * r == 1.0
    ensures Pow(q, n) * Pow(r, n) == 1.0
  {
    PowProduct(q, r, n);
    PowOne(n);
  }

  /** For h > 0, eps * (1 + h)^n exceeds any bound g for some n. */
  lemma LargePower(h: real, g: real, eps: real) returns (n: nat)
    requires h > 0.0 && g >= 0.0 && eps > 0.0
    ensures eps * Pow(1.0 + h, n) > g
  {
    var c := eps * h;
    MulPositive(eps, h);
    n := Archimedes(g, c);
    Bernoulli(h, n);
    var b := Pow(1.0 + h, n);
    ScaledAbove(b, n as real * h, eps);
    MulAssociative(n as real, h, eps);
    assert n as real * (h * eps) == n as real * c;
  }

  lemma MulPositive(x: real, y: real)
    requires 0.0 < x && 0.0 < y
    ensures 0.0 < x * y
  {
  }

  /** Some natural multiple of a positive step exceeds any non-negative bound. */
  lemma Archimedes(g: real, c: real) returns (n: nat)
    requires g >= 0.0 && c > 0.0
    ensures n as real * c > g
  {
    var t := g / c;
    n := t.Floor + 1;
    assert n as real > t;
    ScaledAbove(n as real, t, c);
  }

  /** Bernoulli's inequality: (1 + h)^n >= 1 + n * h for h >= 0. */
  lemma {:induction false} Bernoulli(h: real, n: nat)
    requires h >= 0.0
    ensures Pow(1.0 + h, n) >= 1.0 + n as real * h
  {
    if n > 0 {
      Bernoulli(h, n - 1);
      var p := Pow(1.0 + h, n - 1);
      var m := (n - 1) as real;
      assert (1.0 + h) * p >= (1.0 + h) * (1.0 + m * h) by {
        MulNonNegative(1.0 + h, p - (1.0 + m * h));
      }
      assert (1.0 + h) * (1.0 + m * h) == 1.0 + (m + 1.0) * h + m * (h * h);
      MulNonNegative(m, h * h);
    }
  }

  lemma {:induction false} PowProduct(a: real, b: real, n: nat)
    ensures Pow(a, n) * Pow(b, n) == Pow(a * b, n)
  {
    if n > 0 {
      PowProduct(a, b, n - 1);
      var x, y := Pow(a, n - 1), Pow(b, n - 1);
      assert (a * x) * (b * y) == (a * b) * (x * y);
    }
  }

  lemma {:induction false} PowOne(n: nat)
    ensures Pow(1.0, n) == 1.0
  {
    if n > 0 {
      PowOne(n - 1);
    }
  }

  lemma RAbsScale(p: real, d: real)
    requires p >= 0.0
    ensures RAbs(p * d) == p * RAbs(d)
  {
    if d < 0.0 {
      assert p * d == -(p * -d);
      MulNonNegative(p, -d);
    } else {
      MulNonNegative(p, d);
    }
  }

  lemma ScaledAbove(x: real, y: real, c: real)
    requires x > y && c > 0.0
    ensures x * c > y * c
  {
    assert x * c - y * c == (x - y) * c;
  }

  lemma MulStrict(p: real, g: real, e: real, b: real)
    requires p > 0.0 && p * b == 1.0 && e * b > g
    ensures p * g < e
  {
    assert p * (e * b) - p * g == p * (e * b - g);
    assert p * (e * b) == e * (p * b);
  }

  /** With a gain below 1 an offset away from the sample never reaches it. */
  lemma TicksNeverReach(offset: real, sample: real, k: real, n: nat)
    requires k < 1.0 && offset != sample
    ensures CalibrationTicks(offset, sample, k, n) != sample
  {
    CalibrationTicksGap(offset, sample, k, n);
    PowPositive(1.0 - k, n);
    NonZeroProduct(Pow(1.0 - k, n), sample - offset);
  }

  /** One step with a gain strictly between 0 and 1 strictly narrows a
      nonzero gap without closing it. */
  lemma TickCloser(x: real, sample: real, k: real)
    requires 0.0 < k < 1.0 && x != sample
    ensures 0.0 < RAbs(sample - EmaStep(x, sample, k)) < RAbs(sample - x)
  {
    var g := sample - x;
    assert sample - EmaStep(x, sample, k) == (1.0 - k) * g;
    GapShrinks(g, k);
  }

  /** Two consecutive steps toward the same sample: the second step's change
      is 1 - k times the first's. */
  lemma DeltaShrinks(x: real, sample: real, k: real)
    ensures EmaStep(EmaStep(x, sample, k), sample, k) - EmaStep(x, sample, k)
         == (1.0 - k) * (EmaStep(x, sample, k) - x)
  {
    var y := EmaStep(x, sample, k);
    var z := EmaStep(y, sample, k);
    assert y - x == k * (sample - x);
    assert z - y == k * (sample - y);
    calc {
      z - y;
      k * ((1.0 - k) * (sample - x));
      (1.0 - k) * (k * (sample - x));
    }
  }

  lemma NonZeroProduct(a: real, b: real)
    requires a != 0.0 && b != 0.0
    ensures a * b != 0.0
  {
  }

  lemma GapShrinks(g: real, k: real)
    requires 0.0 < k < 1.0 && g != 0.0
    ensures 0.0 < RAbs((1.0 - k) * g) < RAbs(g)
  {
    assert (1.0 - k) * g == g - k * g;
    if g > 0.0 {
      assert 0.0 < k * g < g;
    } else {
      assert g < k * g < 0.0;
    }
  }

  // ---------------------------------------------------------------------
  // Filtered currents

  /** The mid-period current samples converted to amperes. */
  function ScaledCurrents(conv: Conversions, scale: real): Triplet
  {
    Triplet(conv.currentA as real * scale, conv.currentB as real * scale, conv.currentC as real * scale)
  }

  /** Raw per-phase currents: mid-period samples in amperes minus the offsets. */
  function PhaseCurrents(conv: Conversions, offset: Triplet, scale: real): (r: Triplet)
    ensures Sum(r) == (conv.currentA + conv.currentB + conv.currentC) as real * scale - Sum(offset)
    ensures offset == ScaledCurrents(conv, scale) ==> r == ZeroTriplet
  {
    Triplet(
      conv.currentA as real * scale - offset.A,
      conv.currentB as real * scale - offset.B,
      conv.currentC as real * scale - offset.C)
  }

  /** The common-mode-rejection blend with weight `k`. A balanced triple
      (summing to zero) passes unchanged, a pure common-mode triple is scaled
      by 1 - 3k, and in general the sum is scaled by 1 - 3k. */
  function Blend(i: Triplet, k: real): (r: Triplet)
    ensures Sum(r) == (1.0 - 3.0 * k) * Sum(i)
    ensures Sum(i) == 0.0 ==> r == i
    ensures i.A == i.B == i.C ==>
              r == Triplet((1.0 - 3.0 * k) * i.A, (1.0 - 3.0 * k) * i.A, (1.0 - 3.0 * k) * i.A)
  {
    var r := Triplet(
      (1.0 - k) * i.A - k * (i.B + i.C),
      (1.0 - k) * i.B - k * (i.A + i.C),
      (1.0 - k) * i.C - k * (i.A + i.B));
    assert r.A == i.A - k * Sum(i) && r.B == i.B - k * Sum(i) && r.C == i.C - k * Sum(i);
    r
  }

  /** The filter output for one tick. A tick whose samples sit exactly on the
      offsets reports zero current, and the output's sum is the raw sum
      scaled by 1 - 3k. */
  function FilteredCurrents(conv: Conversions, offset: Triplet, scale: real, k: real): (r: Triplet)
    ensures Sum(r) == (1.0 - 3.0 * k) * Sum(PhaseCurrents(conv, offset, scale))
    ensures offset == ScaledCurrents(conv, scale) ==> r == ZeroTriplet
  {
    Blend(PhaseCurrents(conv, offset, scale), k)
  }

  /** With no current flowing (zero samples) and zero offsets the filter
      reports zero in every phase, whatever the blend weight. */
  lemma FilterAtRest(conv: Conversions, scale: real, k: real)
    requires conv.currentA == conv.currentB == conv.currentC == 0
    ensures FilteredCurrents(conv, ZeroTriplet, scale, k) == ZeroTriplet
  {
    assert Sum(PhaseCurrents(conv, ZeroTriplet, scale)) == 0.0;
  }

  // ---------------------------------------------------------------------
  // Temperature

  /** Temperature in degrees Celsius at which the factory reading was taken. */
  const FactoryTemp: int := 27

  function TempNumerator(vptat: UInt16): (n: Int32)
    ensures n >= (FactoryTemp + 273) * 12288
  {
    (FactoryTemp + 273) * ((vptat * 100) + 12288)
  }

  /** The divisor, built from the factory reading read back as `int16_t`.
      No 16-bit value makes it zero. */
  function TempDenominator(ttemps: UInt16): (d: Int32)
    ensures d != 0
    ensures (d > 0) == (AsInt16(ttemps) > -123)
  {
    (AsInt16(ttemps) * 100) + 12288
  }

  /** The formula in 32-bit arithmetic with C division; no intermediate
      value leaves the 32-bit range. The numerator is positive, so the sign of
      the divisor decides whether the estimate lies above or below -273. */
  function TempRaw(vptat: UInt16, ttemps: UInt16): (t: Int32)
    ensures TempDenominator(ttemps) > 0 ==> t >= -273
    ensures TempDenominator(ttemps) < 0 ==> t <= -273
  {
    var n, d := TempNumerator(vptat), TempDenominator(ttemps);
    DivBound(Abs(n), Abs(d));
    CDiv(n, d) - 273
  }

  /** The stored estimate: the 32-bit result narrowed to `int16_t`; it
      agrees with the 32-bit result modulo 2^16, and exactly when that fits. */
  function McuTemp(vptat: UInt16, ttemps: UInt16): (t: Int16)
    ensures (t - TempRaw(vptat, ttemps)) % 0x1_0000 == 0
    ensures -0x8000 <= TempRaw(vptat, ttemps) < 0x8000 ==> t == TempRaw(vptat, ttemps)
  {
    WrapInt16(TempRaw(vptat, ttemps))
  }

  lemma DivBound(a: nat, b: int)
    requires b >= 1
    ensures a / b <= a
  {
    var q := a / b;
    assert a == q * b + a % b;
    if q > 0 {
      MulMonotone(1, b, q);
      assert q * b == b * q;
    }
  }

  /** A live reading equal to the factory reading gives exactly the factory
      temperature: the one-point calibration's anchor. */
  lemma TempAtFactoryReading(ttemps: UInt16)
    requires ttemps < 0x8000
    ensures McuTemp(ttemps, ttemps) == FactoryTemp
  {
    var d := TempDenominator(ttemps);
    assert TempNumerator(ttemps) == (FactoryTemp + 273) * d;
    CDivMultiple(FactoryTemp + 273, d);
  }

  /** The formula as written reads the live value unsigned but the factory
      value as `int16_t`, so from 0x8000 on the quotient is no longer the
      exact ratio 300 that anchors the estimate: equal readings of 0x8000
      give -575, not 27. */
  lemma TempAtFactoryReadingAsWritten()
    ensures McuTemp(0x8000, 0x8000) == -575
  {
    assert TempDenominator(0x8000) == -3264512;
    assert TempNumerator(0x8000) == 986726400;
    assert 986726400 / 3264512 == 302;
  }

  /** Equal readings of 0xFF85 do give 27, but not through the ratio: the
      32-bit result is -163839973, and 27 appears only through the
      wrap-around of the store into `int16_t`. */
  lemma TempAtFactoryReadingWraps()
    ensures TempRaw(0xFF85, 0xFF85) == -163839973
    ensures McuTemp(0xFF85, 0xFF85) == FactoryTemp
  {
    assert TempDenominator(0xFF85) == -12;
    assert TempNumerator(0xFF85) == 1966076400;
    assert 1966076400 / 12 == 163839700;
    assert -163839973 % 0x1_0000 == 27;
  }

  /** When the divisor is positive the estimate does not fall as the live
      reading rises. */
  lemma TempRawMonotone(v1: UInt16, v2: UInt16, ttemps: UInt16)
    requires v1 <= v2 && AsInt16(ttemps) > -123
    ensures TempRaw(v1, ttemps) <= TempRaw(v2, ttemps)
  {
    var d := TempDenominator(ttemps);
    DivMonotone(TempNumerator(v1), TempNumerator(v2), d);
  }

  lemma DivMonotone(a1: nat, a2: nat, b: int)
    requires a1 <= a2 && b > 0
    ensures a1 / b <= a2 / b
  {
    QuotientMonotone(a1 / b, a1 % b, a2 / b, a2 % b, b);
  }

  lemma QuotientMonotone(q1: int, r1: int, q2: int, r2: int, b: int)
    requires b > 0 && 0 <= r1 < b && 0 <= r2 < b
    requires q1 * b + r1 <= q2 * b + r2
    ensures q1 <= q2
  {
    if q1 > q2 {
      assert (q2 + 1) * b == q2 * b + b;
      MulMonotone(q2 + 1, q1, b);
    }
  }

  // ---------------------------------------------------------------------
  // Overcurrent DAC value

  /** The 10-bit DAC value as written to the two DAC registers: bits 9..2 as
      the high byte, bits 1..0 as the low part. The two parts always rebuild
      the value's low ten bits. */
  function LpdacSplit(lpdacVal: bv16): (r: (bv8, bv8))
    ensures r.1 < 4
    ensures (r.0 as bv16) * 4 + (r.1 as bv16) == lpdacVal % 1024
  {
    (((lpdacVal >> 2) & 0xFF) as bv8, (lpdacVal & 0x03) as bv8)
  }

  /** A value that fits in ten bits is rebuilt exactly. */
  lemma LpdacSplitExact(lpdacVal: bv16)
    requires lpdacVal < 1024
    ensures (LpdacSplit(lpdacVal).0 as bv16) * 4 + (LpdacSplit(lpdacVal).1 as bv16) == lpdacVal
  {
  }

  // ---------------------------------------------------------------------
  // The module-level state

  /** The module-level `adc_config` and `adc_state` records. The shunt scaling
      factor and the blend weight are build-time constants of the firmware. */
  class AdcPipeline {
    const shuntScale: real
    const filterK: real
    var config: AdcConfig
    var phaseMeas: Triplet
    var temp: Int16

    constructor (shuntScale: real, filterK: real)
      ensures this.shuntScale == shuntScale && this.filterK == filterK
      ensures config == AdcConfig(ZeroTriplet, 60.0, 0.2, 0.0)
      ensures phaseMeas == ZeroTriplet && temp == 0
    {
      this.shuntScale, this.filterK := shuntScale, filterK;
      config := AdcConfig(ZeroTriplet, 60.0, 0.2, 0.0);
      phaseMeas, temp := ZeroTriplet, 0;
    }

    /** The bookkeeping part of initialisation: the offset filter gain is
        derived from the control period and the time constant, and the
        overcurrent DAC value is split into the two register values. */
    method Init(pwmPeriodS: real, lpdacVal: bv16) returns (lpdacHigh: bv8, lpdacLow: bv8)
      requires config.phaseOffsetTau != 0.0
      modifies this
      ensures config == old(config).(phaseOffsetK := pwmPeriodS / old(config).phaseOffsetTau)
      ensures (lpdacHigh, lpdacLow) == LpdacSplit(lpdacVal)
      ensures phaseMeas == old(phaseMeas) && temp == old(temp)
    {
      config := config.(phaseOffsetK := pwmPeriodS / config.phaseOffsetTau);
      var split := LpdacSplit(lpdacVal);
      lpdacHigh, lpdacLow := split.0, split.1;
    }

    method GetMcuTemp() returns (t: Int16)
      ensures t == temp
    {
      t := temp;
    }

    /** The filtered currents in presentation order: with the windings
        reversed, phases B and C are exchanged. Nothing is stored. */
    method GetPhaseCurrents(phasesSwapped: bool) returns (phc: Triplet)
      ensures phc.A == phaseMeas.A
      ensures phasesSwapped ==> phc.B == phaseMeas.C && phc.C == phaseMeas.B
      ensures !phasesSwapped ==> phc == phaseMeas
    {
      if phasesSwapped {
        phc := SwapBC(phaseMeas);
      } else {
        phc := phaseMeas;
      }
    }

    /** The per-tick update. Calibration first moves the offsets and then
        filters the currents against the offsets it has just computed;
        closed-loop control only filters; any other state leaves both alone.
        The temperature is recomputed in every state. */
    method Update(state: ControllerState, conv: Conversions, ttemps: UInt16)
      modifies this
      ensures config.phaseOffset ==
                if state == Calibrate
                then CalibratedOffsets(old(config.phaseOffset), conv, shuntScale, config.phaseOffsetK)
                else old(config.phaseOffset)
      ensures config.(phaseOffset := old(config.phaseOffset)) == old(config)
      ensures phaseMeas ==
                if state == Other then old(phaseMeas)
                else FilteredCurrents(conv, config.phaseOffset, shuntScale, filterK)
      ensures temp == McuTemp(conv.vptat, ttemps)
    {
      match state {
        case Calibrate =>
          UpdateOffsets(conv);
          FilterCurrents(conv);
        case ClControl =>
          FilterCurrents(conv);
        case Other =>
      }
      temp := McuTemp(conv.vptat, ttemps);
    }

    method UpdateOffsets(conv: Conversions)
      modifies this
      ensures config == old(config).(phaseOffset :=
                CalibratedOffsets(old(config.phaseOffset), conv, shuntScale, config.phaseOffsetK))
      ensures phaseMeas == old(phaseMeas) && temp == old(temp)
    {
      config := config.(phaseOffset :=
        CalibratedOffsets(config.phaseOffset, conv, shuntScale, config.phaseOffsetK));
    }

    method FilterCurrents(conv: Conversions)
      modifies this
      ensures phaseMeas == FilteredCurrents(conv, config.phaseOffset, shuntScale, filterK)
      ensures config == old(config) && temp == old(temp)
    {
      var i := PhaseCurrents(conv, config.phaseOffset, shuntScale);
      phaseMeas := Blend(i, filterK);
    }

    method GetConfig() returns (c: AdcConfig)
      ensures c == config
    {
      c := config;
    }

    /** Whole-record replacement, the stored gain included. */
    method RestoreConfig(c: AdcConfig)
      modifies this
      ensures config == c
      ensures phaseMeas == old(phaseMeas) && temp == old(temp)
    {
      config := c;
    }
  }

  /** Reading the currents once through the accessor with the windings
      reversed and swapping B and C back gives the stored triple: the
      accessor is a presentation step that leaves the stored currents alone. */
  method PresentationRoundTrip(p: AdcPipeline) returns (stored: Triplet, shown: Triplet)
    ensures stored == p.phaseMeas
    ensures SwapBC(shown) == stored
  {
    stored := p.phaseMeas;
    shown := p.GetPhaseCurrents(true);
  }

  /** Restoring a saved configuration and reading it back yields the saved
      record, gain included, whatever an update did to the configuration in
      between. `saved` is a copy of the record, not the C function's pointer
      to the live record: saving through that pointer and restoring it after
      an update would restore the updated record. */
  method SaveRestore(p: AdcPipeline, state: ControllerState, conv: Conversions, ttemps: UInt16)
    returns (saved: AdcConfig, restored: AdcConfig)
    modifies p
    ensures saved == old(p.config) && restored == saved && p.config == saved
  {
    saved := p.GetConfig();
    p.Update(state, conv, ttemps);
    p.RestoreConfig(saved);
    restored := p.GetConfig();
  }
}
