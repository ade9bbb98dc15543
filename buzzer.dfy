/** The buzzer HAL of the beacon (src/hal/buzzer.c): a PWM output with a
    20 ms period whose duty cycle is the intensity, switched on and off by a
    self-rescheduling delayed work item every 500 ms while the intermittent
    pattern is active. */
module HalBuzzer {
  import opened CTypes

  // Return codes (include/hal/buzzer.h)
  const SUCCESS: int := 0
  const ERROR_INIT: int := -1
  const ERROR_INVALID: int := -2
  const ERROR_STATE: int := -3

  // Intensity levels, percent (include/hal/buzzer.h)
  const INTENSITY_OFF: uint8 := 0
  const INTENSITY_LOW: uint8 := 25
  const INTENSITY_MEDIUM: uint8 := 50
  const INTENSITY_HIGH: uint8 := 75
  const INTENSITY_MAX: uint8 := 100

  /** PWM period, 20 ms (50 Hz), in nanoseconds. */
  const PWM_PERIOD_NS: uint32 := 20000000
  const PWM_PULSE_OFF_NS: uint32 := 0
  /** Time between two runs of the pattern handler. */
  const PATTERN_INTERMITTENT_PERIOD_MS: nat := 500

  /** intensity_to_pulse_ns: the pulse width for an intensity, clamped to
      100 %. The 32-bit product never exceeds 2 * 10^9, so it does not wrap. */
  function IntensityToPulseNs(intensity: uint8): (pulse: uint32)
    ensures pulse <= PWM_PERIOD_NS
    ensures intensity <= 100 ==> pulse * 100 == PWM_PERIOD_NS * intensity
    ensures intensity >= 100 ==> pulse == PWM_PERIOD_NS
    ensures pulse == 0 <==> intensity == 0
  {
    var clamped := if intensity > 100 then 100 else intensity;
    (PWM_PERIOD_NS * clamped) / 100
  }

  /** A higher intensity never gives a shorter pulse; the named levels give
      a quarter, a half, three quarters and all of the period. */
  lemma PulseMonotone(i: uint8, j: uint8)
    requires i <= j
    ensures IntensityToPulseNs(i) <= IntensityToPulseNs(j)
    ensures IntensityToPulseNs(INTENSITY_LOW) == 5000000
    ensures IntensityToPulseNs(INTENSITY_MEDIUM) == 10000000
    ensures IntensityToPulseNs(INTENSITY_HIGH) == 15000000
    ensures IntensityToPulseNs(INTENSITY_MAX) == PWM_PERIOD_NS
  {
    var ci := if i > 100 then 100 else i;
    var cj := if j > 100 then 100 else j;
    MulMonotone(ci, cj, PWM_PERIOD_NS);
    DivMonotone(PWM_PERIOD_NS * ci, PWM_PERIOD_NS * cj, 100);
  }

  /** The pulse the handler writes on one active run that leaves the toggle
      at phaseOn: the intensity's pulse in the ON phase, nothing otherwise. */
  function PhasePulse(intensity: uint8, phaseOn: bool): uint32
  {
    if phaseOn then IntensityToPulseNs(intensity) else PWM_PULSE_OFF_NS
  }

  /** The pulses written by n successive runs of the handler while the
      pattern stays active, starting from the toggle value toggle. */
  function PulseTrain(intensity: uint8, toggle: bool, n: nat): (train: seq<uint32>)
    ensures |train| == n
    decreases n
  {
    if n == 0 then [] else [PhasePulse(intensity, !toggle)] + PulseTrain(intensity, !toggle, n - 1)
  }

  /** The pattern alternates: run k is ON exactly when k's parity differs
      from the starting toggle. */
  lemma {:induction false} PulseTrainAlternates(intensity: uint8, toggle: bool, n: nat, k: nat)
    requires k < n
    ensures PulseTrain(intensity, toggle, n)[k] == PhasePulse(intensity, (k % 2 == 0) != toggle)
    decreases n
  {
    if k > 0 {
      PulseTrainAlternates(intensity, !toggle, n - 1, k - 1);
    }
  }

  /** Number of runs of a train that drive the output. */
  function OnRuns(train: seq<uint32>): (count: nat)
    ensures count <= |train|
  {
    if |train| == 0 then 0 else (if train[0] != 0 then 1 else 0) + OnRuns(train[1..])
  }

  /** Over any even number of runs a non-silent buzzer is on in exactly half
      of them: the 500 ms on / 500 ms off pattern. */
  lemma {:induction false} HalfDuty(intensity: uint8, toggle: bool, m: nat)
    requires intensity != 0
    ensures OnRuns(PulseTrain(intensity, toggle, 2 * m)) == m
  {
    if m > 0 {
      var rest := PulseTrain(intensity, toggle, 2 * (m - 1));
      var train := PulseTrain(intensity, toggle, 2 * m);
      // two runs flip the toggle twice: one of them is ON, the other OFF
      assert PulseTrain(intensity, !toggle, 2 * m - 1) == [PhasePulse(intensity, toggle)] + rest;
      assert train == [PhasePulse(intensity, !toggle), PhasePulse(intensity, toggle)] + rest;
      assert train[1..][1..] == rest;
      HalfDuty(intensity, toggle, m - 1);
    }
  }

  class Buzzer {
    var initialized: bool
    var currentIntensity: uint8
    /** pattern_intermittent_active */
    var active: bool
    /** The handler's static toggle: true after an ON phase. */
    var toggle: bool
    /** Whether the delayed work item is scheduled and not yet run. */
    var workPending: bool
    /** The pulse width last written to the PWM channel. */
    var pulseNs: uint32

    ghost predicate Valid()
      reads this
    {
      && currentIntensity <= 100
      && pulseNs <= PWM_PERIOD_NS
      && (active ==> initialized && workPending)
      && (workPending ==> initialized)
    }

    constructor ()
      ensures Valid()
      ensures !initialized && !active && !toggle && !workPending
      ensures currentIntensity == INTENSITY_MEDIUM && pulseNs == 0
    {
      initialized := false;
      currentIntensity := INTENSITY_MEDIUM;
      active := false;
      toggle := false;
      workPending := false;
      pulseNs := 0;
    }

    /** hal_buzzer_init; deviceReady and pwmOk are the driver's answers to
        the readiness query and to switching the output off. */
    method Init(deviceReady: bool, pwmOk: bool) returns (ret: int)
      requires Valid()
      modifies this
      ensures Valid()
      ensures old(initialized) ==> ret == SUCCESS && unchanged(this)
      ensures !old(initialized) && !deviceReady ==> ret == ERROR_INIT && unchanged(this)
      ensures !old(initialized) && deviceReady && !pwmOk ==> ret == ERROR_INIT && unchanged(this)
      ensures !old(initialized) && deviceReady && pwmOk ==>
        && ret == SUCCESS && initialized && !active && pulseNs == 0
        && currentIntensity == INTENSITY_MEDIUM
        && toggle == old(toggle) && workPending == old(workPending)
    {
      if initialized {
        return SUCCESS;
      }
      if !deviceReady {
        return ERROR_INIT;
      }
      if !pwmOk {
        return ERROR_INIT;
      }
      pulseNs := IntensityToPulseNs(INTENSITY_OFF);
      currentIntensity := INTENSITY_MEDIUM;
      active := false;
      initialized := true;
      ret := SUCCESS;
    }

    /** stop_intermittent: deactivates, cancels the pending run and switches
        the output off. */
    method StopIntermittent()
      requires Valid() && initialized
      modifies this
      ensures Valid()
      ensures !active && !workPending && pulseNs == 0
      ensures initialized && currentIntensity == old(currentIntensity) && toggle == old(toggle)
    {
      active := false;
      workPending := false;
      pulseNs := IntensityToPulseNs(0);
    }

    /** hal_buzzer_set_intermittent: starts the pattern at an intensity (the
        first run is due at once) or stops it. */
    method SetIntermittent(on: bool, intensity: uint8) returns (ret: int)
      requires Valid()
      modifies this
      ensures Valid()
      ensures !old(initialized) ==> ret == ERROR_STATE && unchanged(this)
      ensures old(initialized) && intensity > 100 ==> ret == ERROR_INVALID && unchanged(this)
      ensures old(initialized) && intensity <= 100 && on ==>
        && ret == SUCCESS && active && workPending && currentIntensity == intensity
        && pulseNs == old(pulseNs) && toggle == old(toggle)
      ensures old(initialized) && intensity <= 100 && !on ==>
        && ret == SUCCESS && !active && !workPending && pulseNs == 0
        && currentIntensity == old(currentIntensity) && toggle == old(toggle)
      ensures initialized == old(initialized)
    {
      if !initialized {
        return ERROR_STATE;
      }
      if intensity > 100 {
        return ERROR_INVALID;
      }
      if on {
        currentIntensity := intensity;
        active := true;
        workPending := true;
      } else {
        StopIntermittent();
      }
      ret := SUCCESS;
    }

    /** pattern_intermittent_handler, one run of the work item. Inactive, it
        switches the output off and does not reschedule itself; active, it
        flips the toggle, writes the ON or OFF pulse and reschedules itself. */
    method Tick()
      requires Valid() && initialized
      modifies this
      ensures Valid()
      ensures !old(active) ==> pulseNs == 0 && !workPending && toggle == old(toggle)
      ensures old(active) ==>
        && toggle == !old(toggle) && workPending
        && pulseNs == PhasePulse(currentIntensity, toggle)
        && [pulseNs] == PulseTrain(currentIntensity, old(toggle), 1)
      ensures initialized && active == old(active) && currentIntensity == old(currentIntensity)
    {
      if !active {
        pulseNs := IntensityToPulseNs(0);
        workPending := false;
        return;
      }
      toggle := !toggle;
      if toggle {
        pulseNs := IntensityToPulseNs(currentIntensity);
      } else {
        pulseNs := IntensityToPulseNs(0);
      }
      workPending := true;
    }
  }
}
