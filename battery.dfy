/** The battery HAL of the beacon (src/hal/battery.c): the supply voltage is
    read through a 12-bit ADC with 4-fold oversampling, and converted to a
    charge percentage and a charge state for a CR2032 coin cell. */
module HalBattery {
  import opened CTypes

  // Return codes of the HAL (include/hal/battery.h)
  const SUCCESS: int := 0
  const ERROR_INIT: int := -1
  const ERROR_READ: int := -2
  const ERROR_STATE: int := -3

  /** Zephyr's errno for an I/O error; the oversampling read returns it negated. */
  const EIO: int := 5

  // ADC: 12-bit resolution, 3.6 V full scale (0.6 V reference with gain 1/6)
  const ADC_MAX: nat := 4095
  const ADC_LIMIT: nat := 4096
  const ADC_VREF_MV: nat := 3600
  const ADC_SAMPLES: nat := 4

  // CR2032 discharge breakpoints
  const VOLTAGE_MAX_MV: int := 3000
  const VOLTAGE_GOOD_MV: int := 2800
  const VOLTAGE_LOW_MV: int := 2500
  const VOLTAGE_CRIT_MV: int := 2200
  const VOLTAGE_MIN_MV: int := 2000

  datatype BatteryState = Critical | Low | Medium | Good | Unknown

  /** The numeric value of the state enum, as served over GATT. */
  function StateCode(s: BatteryState): (c: uint8)
    ensures c <= 4
    ensures (c == 4) <==> s == Unknown
  {
    match s
    case Critical => 0
    case Low => 1
    case Medium => 2
    case Good => 3
    case Unknown => 4
  }

  datatype BatteryInfo = BatteryInfo(voltageMv: uint16, percentage: uint8, state: BatteryState)

  /** The reading cached before any successful measurement. */
  const NO_READING: BatteryInfo := BatteryInfo(0, 0, Unknown)

  /*************************************************************************
   * Linear interpolation and the voltage-to-charge map
   *************************************************************************/

  /** Interpolates y at x on the segment (x0, y0)-(x1, y1), clamping to the
      end values outside it; the division truncates as in C. */
  function LinearInterpolate(x: int, x0: int, y0: int, x1: int, y1: int): (r: int)
    ensures x <= x0 ==> r == y0
    ensures x0 < x && x1 <= x ==> r == y1
    ensures x0 < x < x1 && y0 <= y1 ==> y0 <= r <= y1
    ensures x0 < x < x1 && y1 <= y0 ==> y1 <= r <= y0
  {
    if x <= x0 then y0
    else if x >= x1 then y1
    else
      StepBounds(x - x0, x1 - x0, y1 - y0);
      y0 + TruncDiv((x - x0) * (y1 - y0), x1 - x0)
  }

  /** The interpolated step stays between 0 and the full rise dy. */
  lemma StepBounds(dx: int, d: int, dy: int)
    requires 0 < dx < d
    ensures 0 <= dy ==> 0 <= TruncDiv(dx * dy, d) <= dy
    ensures dy < 0 ==> dy <= TruncDiv(dx * dy, d) <= 0
  {
    if 0 <= dy {
      MulMonotone(dx, d, dy);
      DivAtMost(dx * dy, d, dy);
    } else {
      MulMonotone(dx, d, -dy);
      assert -(dx * dy) == dx * (-dy);
      DivAtMost(-(dx * dy), d, -dy);
    }
  }

  /** On a rising segment, interpolation is non-decreasing in x. */
  lemma InterpolateMonotone(x: int, x': int, x0: int, y0: int, x1: int, y1: int)
    requires x <= x' && y0 <= y1
    ensures LinearInterpolate(x, x0, y0, x1, y1) <= LinearInterpolate(x', x0, y0, x1, y1)
  {
    if x0 < x && x' < x1 {
      MulMonotone(x - x0, x' - x0, y1 - y0);
      MulMonotone(0, x - x0, y1 - y0);
      DivMonotone((x - x0) * (y1 - y0), (x' - x0) * (y1 - y0), x1 - x0);
    }
  }

  /** The percentage before the final clamp: the segment chain of
      hal_battery_voltage_to_percentage. */
  function SegmentPercentage(v: int): int
  {
    if v >= VOLTAGE_MAX_MV then 100
    else if v >= VOLTAGE_GOOD_MV then LinearInterpolate(v, VOLTAGE_GOOD_MV, 70, VOLTAGE_MAX_MV, 100)
    else if v >= VOLTAGE_LOW_MV then LinearInterpolate(v, VOLTAGE_LOW_MV, 30, VOLTAGE_GOOD_MV, 70)
    else if v >= VOLTAGE_CRIT_MV then LinearInterpolate(v, VOLTAGE_CRIT_MV, 10, VOLTAGE_LOW_MV, 30)
    else if v >= VOLTAGE_MIN_MV then LinearInterpolate(v, VOLTAGE_MIN_MV, 0, VOLTAGE_CRIT_MV, 10)
    else 0
  }

  /** Estimated charge (0-100 %) of a CR2032 cell at the given voltage. */
  function VoltageToPercentage(v: uint16): (p: uint8)
    ensures p <= 100
    ensures v < VOLTAGE_MIN_MV ==> p == 0
    ensures v >= VOLTAGE_MAX_MV ==> p == 100
  {
    var raw := SegmentPercentage(v);
    if raw > 100 then 100 else if raw < 0 then 0 else raw
  }

  /** The segment chain already lands in 0..100, so the clamp never changes it. */
  lemma ClampIsInert(v: uint16)
    ensures 0 <= SegmentPercentage(v) <= 100
    ensures VoltageToPercentage(v) == SegmentPercentage(v)
  {
  }

  /** The map hits each breakpoint of the discharge curve exactly. */
  lemma Breakpoints()
    ensures VoltageToPercentage(1999) == 0
    ensures VoltageToPercentage(2000) == 0
    ensures VoltageToPercentage(2200) == 10
    ensures VoltageToPercentage(2500) == 30
    ensures VoltageToPercentage(2800) == 70
    ensures VoltageToPercentage(3000) == 100
    ensures VoltageToPercentage(3600) == 100
  {
  }

  /** A higher voltage never gives a lower charge, across all segments. */
  lemma PercentageMonotone(v: uint16, w: uint16)
    requires v <= w
    ensures VoltageToPercentage(v) <= VoltageToPercentage(w)
  {
    ClampIsInert(v);
    ClampIsInert(w);
    if v >= VOLTAGE_MAX_MV || w < VOLTAGE_MIN_MV {
    } else if w >= VOLTAGE_GOOD_MV && v >= VOLTAGE_GOOD_MV {
      InterpolateMonotone(v, w, VOLTAGE_GOOD_MV, 70, VOLTAGE_MAX_MV, 100);
    } else if w >= VOLTAGE_LOW_MV && v >= VOLTAGE_LOW_MV && w < VOLTAGE_GOOD_MV {
      InterpolateMonotone(v, w, VOLTAGE_LOW_MV, 30, VOLTAGE_GOOD_MV, 70);
    } else if w >= VOLTAGE_CRIT_MV && v >= VOLTAGE_CRIT_MV && w < VOLTAGE_LOW_MV {
      InterpolateMonotone(v, w, VOLTAGE_CRIT_MV, 10, VOLTAGE_LOW_MV, 30);
    } else if v >= VOLTAGE_MIN_MV && w < VOLTAGE_CRIT_MV {
      InterpolateMonotone(v, w, VOLTAGE_MIN_MV, 0, VOLTAGE_CRIT_MV, 10);
    }
  }

  /** Classifies a charge percentage; never yields Unknown. */
  function PercentageToState(p: uint8): (s: BatteryState)
    ensures s != Unknown
    ensures s == Good <==> p > 70
    ensures s == Medium <==> 30 < p <= 70
    ensures s == Low <==> 10 < p <= 30
    ensures s == Critical <==> p <= 10
  {
    if p > 70 then Good
    else if p > 30 then Medium
    else if p > 10 then Low
    else Critical
  }

  /** The charge state as a function of the voltage: the state boundaries
      fall at 2215, 2508 and 2807 mV. */
  lemma StateThresholds(v: uint16)
    ensures PercentageToState(VoltageToPercentage(v)) ==
      if v >= 2807 then Good
      else if v >= 2508 then Medium
      else if v >= 2215 then Low
      else Critical
  {
    ClampIsInert(v);
    var p := VoltageToPercentage(v);
    if v >= VOLTAGE_MAX_MV {
    } else if v >= VOLTAGE_GOOD_MV {
      assert p == 70 + (v - 2800) * 30 / 200;
    } else if v >= VOLTAGE_LOW_MV {
      assert p == 30 + (v - 2500) * 40 / 300;
    } else if v >= VOLTAGE_CRIT_MV {
      assert p == 10 + (v - 2200) * 20 / 300;
    } else if v >= VOLTAGE_MIN_MV {
      assert p <= 10;
    }
  }

  /** The ordinal of a state along the charge scale. */
  lemma StateMonotone(v: uint16, w: uint16)
    requires v <= w
    ensures StateCode(PercentageToState(VoltageToPercentage(v))) <= StateCode(PercentageToState(VoltageToPercentage(w)))
  {
    StateThresholds(v);
    StateThresholds(w);
  }

  /*************************************************************************
   * ADC conversion and oversampling
   *************************************************************************/

  /** Scales a raw ADC code to millivolts as the C code does: widening to
      uint32, a uint32 product, integer division by 4095 and narrowing to
      uint16 (the divider ratio 1.0 leaves the value alone). */
  function AdcRawToMv(raw: int16): (mv: uint16)
    ensures 0 <= raw ==> mv * ADC_MAX <= raw * ADC_VREF_MV < (mv + 1) * ADC_MAX
    ensures 0 <= raw <= ADC_MAX ==> mv <= ADC_VREF_MV
  {
    var widened := raw % 0x1_0000_0000;
    var scaled := (widened * ADC_VREF_MV) % 0x1_0000_0000;
    var voltage := scaled / ADC_MAX;
    if 0 <= raw <= ADC_MAX then DivAtMost(raw * ADC_VREF_MV, ADC_MAX, ADC_VREF_MV); voltage % 0x1_0000
    else voltage % 0x1_0000
  }

  /** Larger raw codes never give fewer millivolts. */
  lemma AdcRawToMvMonotone(a: int16, b: int16)
    requires 0 <= a <= b
    ensures AdcRawToMv(a) <= AdcRawToMv(b)
  {
    MulMonotone(a, b, ADC_VREF_MV);
    DivMonotone(a * ADC_VREF_MV, b * ADC_VREF_MV, ADC_MAX);
  }

  /** One call of the ADC driver: failed, or a raw 16-bit sample. */
  datatype AdcRead = ReadFailed | Sample(raw: int16)

  /** A sample the oversampling loop keeps: neither negative nor saturated. */
  predicate IsValidSample(r: AdcRead)
  {
    r.Sample? && 0 <= r.raw < ADC_LIMIT
  }

  /** Sum of the valid samples among the driver reads. */
  function ValidSum(samples: seq<AdcRead>): int
  {
    if |samples| == 0 then 0
    else
      var last := samples[|samples| - 1];
      ValidSum(samples[..|samples| - 1]) + (if IsValidSample(last) then last.raw else 0)
  }

  /** Number of valid samples among the driver reads. */
  function ValidCount(samples: seq<AdcRead>): nat
  {
    if |samples| == 0 then 0
    else ValidCount(samples[..|samples| - 1]) + (if IsValidSample(samples[|samples| - 1]) then 1 else 0)
  }

  lemma {:induction false} ValidSumBounds(samples: seq<AdcRead>)
    ensures ValidCount(samples) <= |samples|
    ensures 0 <= ValidSum(samples) <= ADC_MAX * ValidCount(samples)
  {
    if |samples| > 0 {
      ValidSumBounds(samples[..|samples| - 1]);
    }
  }

  /** The average of the valid samples is itself a valid 12-bit code. */
  lemma AverageInRange(samples: seq<AdcRead>)
    requires ValidCount(samples) > 0
    ensures 0 <= ValidSum(samples) / ValidCount(samples) <= ADC_MAX
  {
    ValidSumBounds(samples);
    DivAtMost(ValidSum(samples), ValidCount(samples), ADC_MAX);
  }

  /** What an oversampled read yields: -EIO without a valid sample,
      otherwise the millivolts of the average valid code. */
  function OversampledVoltage(samples: seq<AdcRead>): (r: Result<uint16>)
    ensures r.Err? <==> ValidCount(samples) == 0
    ensures r.Err? ==> r.code == -EIO
    ensures r.Ok? ==> r.value <= ADC_VREF_MV
  {
    if ValidCount(samples) == 0 then Err(-EIO)
    else
      AverageInRange(samples);
      Ok(AdcRawToMv(ValidSum(samples) / ValidCount(samples)))
  }

  /** adc_read_with_oversampling: four driver reads, failed and invalid
      samples skipped, valid ones averaged. */
  method AdcReadWithOversampling(samples: seq<AdcRead>) returns (r: Result<uint16>)
    requires |samples| == ADC_SAMPLES
    ensures r == OversampledVoltage(samples)
  {
    var sum := 0;
    var validSamples := 0;
    for i := 0 to |samples|
      invariant sum == ValidSum(samples[..i])
      invariant validSamples == ValidCount(samples[..i])
    {
      assert samples[..i + 1][..i] == samples[..i];
      var read := samples[i];
      if read.ReadFailed? {
        continue;
      }
      if 0 <= read.raw < ADC_LIMIT {
        sum := sum + read.raw;
        validSamples := validSamples + 1;
      }
    }
    assert samples[..|samples|] == samples;
    if validSamples == 0 {
      return Err(-EIO);
    }
    AverageInRange(samples);
    var avgRaw := sum / validSamples;
    r := Ok(AdcRawToMv(avgRaw));
  }

  /** The battery information derived from one voltage reading. */
  function InfoFromVoltage(mv: uint16): BatteryInfo
  {
    var p := VoltageToPercentage(mv);
    BatteryInfo(mv, p, PercentageToState(p))
  }

  /** A measurement from an initialised HAL: ERROR_READ when the ADC gave
      nothing usable, otherwise a consistent voltage, charge and state. */
  function Measure(samples: seq<AdcRead>): (r: Result<BatteryInfo>)
    ensures r.Err? <==> ValidCount(samples) == 0
    ensures r.Err? ==> r.code == ERROR_READ
    ensures r.Ok? ==> r.value.voltageMv <= ADC_VREF_MV && r.value.state != Unknown
    ensures r.Ok? ==> r.value.percentage == VoltageToPercentage(r.value.voltageMv)
    ensures r.Ok? ==> r.value.state == PercentageToState(r.value.percentage)
  {
    match OversampledVoltage(samples)
    case Err(_) => Err(ERROR_READ)
    case Ok(mv) => Ok(InfoFromVoltage(mv))
  }

  /** The result of hal_battery_get_info with a non-null output pointer: it
      fails exactly before initialisation or without a valid sample, with the
      guard's own code, and otherwise reports a consistent reading. */
  function InfoReading(initialized: bool, samples: seq<AdcRead>): (r: Result<BatteryInfo>)
    ensures r.Err? <==> !initialized || ValidCount(samples) == 0
    ensures r.Err? ==> r.code == (if !initialized then ERROR_STATE else ERROR_READ)
    ensures r.Ok? ==> r.value.voltageMv <= ADC_VREF_MV && r.value.state != Unknown
    ensures r.Ok? ==> r.value.percentage == VoltageToPercentage(r.value.voltageMv)
    ensures r.Ok? ==> r.value.state == PercentageToState(r.value.percentage)
  {
    if initialized then Measure(samples) else Err(ERROR_STATE)
  }

  /*************************************************************************
   * Module state: initialisation flag and last reading
   *************************************************************************/

  class Battery {
    var initialized: bool
    var lastReading: BatteryInfo

    /** The cached reading is the initial one or a consistent measurement. */
    ghost predicate Valid()
      reads this
    {
      && (!initialized ==> lastReading == NO_READING)
      && (lastReading == NO_READING
          || (lastReading.voltageMv <= ADC_VREF_MV && lastReading == InfoFromVoltage(lastReading.voltageMv)))
    }

    constructor ()
      ensures Valid() && !initialized && lastReading == NO_READING
    {
      initialized := false;
      lastReading := NO_READING;
    }

    /** hal_battery_init; deviceReady and setupOk are the ADC driver's answers,
        firstReads the samples of the first measurement. */
    method Init(deviceReady: bool, setupOk: bool, firstReads: seq<AdcRead>) returns (ret: int)
      requires Valid() && |firstReads| == ADC_SAMPLES
      modifies this
      ensures Valid()
      ensures old(initialized) ==> ret == SUCCESS && unchanged(this)
      ensures !old(initialized) && !(deviceReady && setupOk) ==> ret == ERROR_INIT && unchanged(this)
      ensures !old(initialized) && deviceReady && setupOk ==>
        && ret == SUCCESS && initialized
        && lastReading == (if Measure(firstReads).Ok? then Measure(firstReads).value else old(lastReading))
    {
      if initialized {
        return SUCCESS;
      }
      if !deviceReady || !setupOk {
        return ERROR_INIT;
      }
      initialized := true;
      var _ := GetInfo(true, firstReads);
      ret := SUCCESS;
    }

    /** hal_battery_read_voltage; outPresent is false for a NULL output pointer. */
    method ReadVoltage(outPresent: bool, samples: seq<AdcRead>) returns (r: Result<uint16>)
      requires |samples| == ADC_SAMPLES
      ensures !initialized ==> r == Err(ERROR_STATE)
      ensures initialized && !outPresent ==> r == Err(ERROR_READ)
      ensures initialized && outPresent ==>
        r == (if ValidCount(samples) == 0 then Err(ERROR_READ) else OversampledVoltage(samples))
    {
      if !initialized {
        return Err(ERROR_STATE);
      }
      if !outPresent {
        return Err(ERROR_READ);
      }
      var sampled := AdcReadWithOversampling(samples);
      if sampled.Err? {
        return Err(ERROR_READ);
      }
      r := sampled;
    }

    /** hal_battery_get_info; outPresent is false for a NULL output pointer.
        A successful reading is also cached as the last reading. */
    method GetInfo(outPresent: bool, samples: seq<AdcRead>) returns (r: Result<BatteryInfo>)
      requires Valid() && |samples| == ADC_SAMPLES
      modifies this
      ensures Valid() && initialized == old(initialized)
      ensures !initialized ==> r == Err(ERROR_STATE)
      ensures initialized && !outPresent ==> r == Err(ERROR_READ)
      ensures initialized && outPresent ==> r == Measure(samples)
      ensures lastReading == (if r.Ok? then r.value else old(lastReading))
    {
      if !initialized {
        return Err(ERROR_STATE);
      }
      if !outPresent {
        return Err(ERROR_READ);
      }
      var voltage := ReadVoltage(true, samples);
      if voltage.Err? {
        return Err(voltage.code);
      }
      var percentage := VoltageToPercentage(voltage.value);
      var state := PercentageToState(percentage);
      r := Ok(BatteryInfo(voltage.value, percentage, state));
      lastReading := r.value;
    }

    /** hal_battery_is_critical: false when uninitialised or when the reading
        fails, otherwise whether the fresh reading is in the critical state. */
    method IsCritical(samples: seq<AdcRead>) returns (critical: bool)
      requires Valid() && |samples| == ADC_SAMPLES
      modifies this
      ensures Valid() && initialized == old(initialized)
      ensures critical <==> InfoReading(initialized, samples).Ok? && InfoReading(initialized, samples).value.state == Critical
      ensures lastReading == (if InfoReading(initialized, samples).Ok? then InfoReading(initialized, samples).value else old(lastReading))
    {
      if !initialized {
        return false;
      }
      var info := GetInfo(true, samples);
      if info.Err? {
        return false;
      }
      critical := info.value.state == Critical;
    }
  }

  /** A successful critical verdict means the measured cell is below 2215 mV. */
  lemma CriticalMeansBelow2215(samples: seq<AdcRead>)
    requires Measure(samples).Ok?
    ensures Measure(samples).value.state == Critical <==> Measure(samples).value.voltageMv < 2215
  {
    StateThresholds(Measure(samples).value.voltageMv);
  }
}
