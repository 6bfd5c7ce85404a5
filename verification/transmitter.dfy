/**
 * The analog transmitter signal generator: a sine, sawtooth or triangular
 * ramp signal that advances with a simulation clock, forced overflow and
 * underflow values, an out-of-scale fault flag, and the configuration
 * writes that keep the mode flags of each pair mutually exclusive.
 */
module TransmitterModel {
  import opened Uint

  /** The value of pi the generator works with. */
  const PI: real := 3.14159265

  /** Frequency of the sine wave, in hertz. */
  const SINE_FREQUENCY: real := 0.1

  /** Period of the sawtooth wave, in seconds. */
  const SAWTOOTH_PERIOD: real := 10.0

  /** `min_range`, `max_range`, `min_scale`, `max_scale`, `step_size` and the mode flags. */
  datatype TransmitterConfig = TransmitterConfig(
    minRange: real,
    maxRange: real,
    minScale: real,
    maxScale: real,
    stepSize: real,
    simulationActive: bool,
    sineWave: bool,
    sawtoothWave: bool,
    overflow: bool,
    underflow: bool)

  /** `current_value`, `simulation_time` (seconds) and `fault`. */
  datatype TransmitterState = TransmitterState(currentValue: real, simulationTime: real, fault: bool)

  /** Neither pair of mode flags has both of its flags set. */
  predicate FlagsExclusive(c: TransmitterConfig)
  {
    !(c.sineWave && c.sawtoothWave) && !(c.overflow && c.underflow)
  }

  /** The fault condition: a value below the lower or above the upper scale bound. */
  predicate OutOfScale(value: real, minScale: real, maxScale: real): (out: bool)
    ensures value == minScale || value == maxScale ==> (out <==> maxScale < minScale)
    ensures minScale <= maxScale && out ==> value != minScale && value != maxScale
  {
    value < minScale || value > maxScale
  }

  /** Seconds added to the simulation clock by one cycle of `cycleTimeMs` milliseconds. */
  function TimeStep(cycleTimeMs: uint32): (dt: real)
    ensures 0.0 <= dt < 4294967.296
    ensures cycleTimeMs == 100 ==> dt == 0.1
  {
    cycleTimeMs as real / 1000.0
  }

  // ---------------------------------------------------------------------
  // Waveforms
  // ---------------------------------------------------------------------

  /** Sine wave between the range bounds at time `t`; `sin` is the C library's sine. */
  function SineValue(minRange: real, maxRange: real, t: real, sin: real -> real): (v: real)
    ensures sin(2.0 * PI * SINE_FREQUENCY * t) == 0.0 ==> v == (minRange + maxRange) / 2.0
    ensures sin(2.0 * PI * SINE_FREQUENCY * t) == 1.0 ==> v == maxRange
    ensures sin(2.0 * PI * SINE_FREQUENCY * t) == -1.0 ==> v == minRange
  {
    var s := sin(2.0 * PI * SINE_FREQUENCY * t);
    HalfSpanPeaks(minRange, maxRange, s);
    minRange + ((maxRange - minRange) / 2.0) * (1.0 + s)
  }

  /** Sawtooth wave between the range bounds at time `t`; `fmod` is the C library's remainder. */
  function SawtoothValue(minRange: real, maxRange: real, t: real, fmod: (real, real) -> real): (v: real)
    ensures fmod(t, SAWTOOTH_PERIOD) == 0.0 ==> v == minRange
    ensures fmod(t, SAWTOOTH_PERIOD) == SAWTOOTH_PERIOD / 2.0 ==> v == (minRange + maxRange) / 2.0
  {
    minRange + (maxRange - minRange) * (fmod(t, SAWTOOTH_PERIOD) / SAWTOOTH_PERIOD)
  }

  /** Whenever the sine lies in [-1, 1], the sine wave stays within the range bounds. */
  lemma SineWithinRange(minRange: real, maxRange: real, t: real, sin: real -> real)
    requires minRange <= maxRange
    requires -1.0 <= sin(2.0 * PI * SINE_FREQUENCY * t) <= 1.0
    ensures minRange <= SineValue(minRange, maxRange, t, sin) <= maxRange
  {
    var s := sin(2.0 * PI * SINE_FREQUENCY * t);
    assert SineValue(minRange, maxRange, t, sin) == minRange + ((maxRange - minRange) / 2.0) * (1.0 + s);
    HalfSpanWithin(minRange, maxRange, s);
  }

  /** `lo + ((hi - lo) / 2) * (1 + s)` lies between `lo` and `hi` for every `s` in [-1, 1]. */
  lemma HalfSpanWithin(lo: real, hi: real, s: real)
    requires lo <= hi && -1.0 <= s <= 1.0
    ensures lo <= lo + ((hi - lo) / 2.0) * (1.0 + s) <= hi
  {
    var half := (hi - lo) / 2.0;
    NonNegativeProduct(half, 1.0 + s);
    NonNegativeProduct(half, 1.0 - s);
    assert half * (1.0 + s) == half + half * s;
    assert half * (1.0 - s) == half - half * s;
  }

  /** `lo + ((hi - lo) / 2) * (1 + s)` is `hi` at `s = 1`, `lo` at `s = -1` and the midpoint at `s = 0`. */
  lemma HalfSpanPeaks(lo: real, hi: real, s: real)
    ensures s == 1.0 ==> lo + ((hi - lo) / 2.0) * (1.0 + s) == hi
    ensures s == -1.0 ==> lo + ((hi - lo) / 2.0) * (1.0 + s) == lo
    ensures s == 0.0 ==> lo + ((hi - lo) / 2.0) * (1.0 + s) == (lo + hi) / 2.0
  {
  }

  /** Whenever the remainder lies in [0, period), the sawtooth stays in [min_range, max_range). */
  lemma SawtoothWithinRange(minRange: real, maxRange: real, t: real, fmod: (real, real) -> real)
    requires minRange <= maxRange
    requires 0.0 <= fmod(t, SAWTOOTH_PERIOD) < SAWTOOTH_PERIOD
    ensures minRange <= SawtoothValue(minRange, maxRange, t, fmod) <= maxRange
    ensures minRange < maxRange ==> SawtoothValue(minRange, maxRange, t, fmod) < maxRange
  {
    var phase := fmod(t, SAWTOOTH_PERIOD) / SAWTOOTH_PERIOD;
    assert 0.0 <= phase < 1.0;
    ScaledWithin(minRange, maxRange, phase);
  }

  /** `lo + (hi - lo) * f` lies between `lo` and `hi` for every fraction `f` in [0, 1], below `hi` when `f < 1`. */
  lemma ScaledWithin(lo: real, hi: real, f: real)
    requires lo <= hi && 0.0 <= f <= 1.0
    ensures lo <= lo + (hi - lo) * f <= hi
    ensures lo < hi && f < 1.0 ==> lo + (hi - lo) * f < hi
  {
    NonNegativeProduct(hi - lo, f);
    NonNegativeProduct(hi - lo, 1.0 - f);
    assert (hi - lo) * (1.0 - f) == (hi - lo) - (hi - lo) * f;
    if lo < hi && f < 1.0 {
      PositiveProduct(hi - lo, 1.0 - f);
    }
  }

  lemma NonNegativeProduct(a: real, b: real)
    requires 0.0 <= a && 0.0 <= b
    ensures 0.0 <= a * b
  {
  }

  lemma PositiveProduct(a: real, b: real)
    requires 0.0 < a && 0.0 < b
    ensures 0.0 < a * b
  {
  }

  /** `n` steps of a non-negative size cover at least one step, and `n` steps are `n - 1` steps and one more. */
  lemma StepMultiple(stepSize: real, n: nat)
    requires 0.0 <= stepSize && n > 0
    ensures stepSize <= (n as real) * stepSize
    ensures ((n - 1) as real) * stepSize == (n as real) * stepSize - stepSize
  {
    NonNegativeProduct(stepSize, (n - 1) as real);
    assert (n as real) * stepSize == ((n - 1) as real) * stepSize + stepSize;
  }

  // ---------------------------------------------------------------------
  // Ramp (triangular wave)
  // ---------------------------------------------------------------------

  /** The ramp's value together with its direction flag. */
  datatype RampState = RampState(value: real, increasing: bool)

  /**
   * One ramp step: move by `stepSize` in the current direction; on reaching
   * or passing a range bound, stop at that bound and reverse.
   */
  function RampStep(r: RampState, stepSize: real, minRange: real, maxRange: real): (n: RampState)
    ensures 0.0 <= stepSize && minRange <= r.value <= maxRange ==> minRange <= n.value <= maxRange
    ensures n.increasing != r.increasing <==>
              (if r.increasing then r.value + stepSize >= maxRange else r.value - stepSize <= minRange)
    ensures n.increasing != r.increasing ==> n.value == (if r.increasing then maxRange else minRange)
    ensures n.increasing == r.increasing ==>
              n.value == (if r.increasing then r.value + stepSize else r.value - stepSize)
  {
    if r.increasing then
      if r.value + stepSize >= maxRange then RampState(maxRange, false) else RampState(r.value + stepSize, true)
    else
      if r.value - stepSize <= minRange then RampState(minRange, true) else RampState(r.value - stepSize, false)
  }

  /** The ramp after `n` consecutive steps with an unchanged configuration. */
  function RampRun(r: RampState, stepSize: real, minRange: real, maxRange: real, n: nat): (after: RampState)
    decreases n
  {
    if n == 0 then r else RampRun(RampStep(r, stepSize, minRange, maxRange), stepSize, minRange, maxRange, n - 1)
  }

  /** With a non-negative step, a ramp that starts within the range never leaves it. */
  lemma {:induction false} RampStaysInRange(r: RampState, stepSize: real, minRange: real, maxRange: real, n: nat)
    requires 0.0 <= stepSize && minRange <= r.value <= maxRange
    ensures minRange <= RampRun(r, stepSize, minRange, maxRange, n).value <= maxRange
    decreases n
  {
    if n > 0 {
      RampStaysInRange(RampStep(r, stepSize, minRange, maxRange), stepSize, minRange, maxRange, n - 1);
    }
  }

  /** A rising ramp that does not reach `max_range` within `n` steps climbs by exactly `n` steps. */
  lemma {:induction false} RampClimbs(r: RampState, stepSize: real, minRange: real, maxRange: real, n: nat)
    requires r.increasing && 0.0 <= stepSize
    requires r.value + (n as real) * stepSize < maxRange
    ensures RampRun(r, stepSize, minRange, maxRange, n) == RampState(r.value + (n as real) * stepSize, true)
    decreases n
  {
    if n > 0 {
      var next := RampStep(r, stepSize, minRange, maxRange);
      StepMultiple(stepSize, n);
      RampClimbs(next, stepSize, minRange, maxRange, n - 1);
    }
  }

  /** A falling ramp that does not reach `min_range` within `n` steps descends by exactly `n` steps. */
  lemma {:induction false} RampDescends(r: RampState, stepSize: real, minRange: real, maxRange: real, n: nat)
    requires !r.increasing && 0.0 <= stepSize
    requires r.value - (n as real) * stepSize > minRange
    ensures RampRun(r, stepSize, minRange, maxRange, n) == RampState(r.value - (n as real) * stepSize, false)
    decreases n
  {
    if n > 0 {
      var next := RampStep(r, stepSize, minRange, maxRange);
      StepMultiple(stepSize, n);
      RampDescends(next, stepSize, minRange, maxRange, n - 1);
    }
  }

  /**
   * The step size is not checked when it is written: with a negative step a
   * rising ramp moves down, never meets `max_range` and so never reverses.
   */
  lemma {:induction false} NegativeStepRunsAway(r: RampState, stepSize: real, minRange: real, maxRange: real, n: nat)
    requires r.increasing && stepSize < 0.0 && r.value < maxRange
    ensures RampRun(r, stepSize, minRange, maxRange, n) == RampState(r.value + (n as real) * stepSize, true)
    decreases n
  {
    if n > 0 {
      var next := RampStep(r, stepSize, minRange, maxRange);
      assert next == RampState(r.value + stepSize, true);
      NegativeStepRunsAway(next, stepSize, minRange, maxRange, n - 1);
    }
  }

  /** When the range lies inside the scale, a ramp started within the range never raises the fault. */
  lemma RampNeverOutOfScale(r: RampState, stepSize: real, c: TransmitterConfig, n: nat)
    requires 0.0 <= stepSize && c.minScale <= c.minRange && c.maxRange <= c.maxScale
    requires c.minRange <= r.value <= c.maxRange
    ensures !OutOfScale(RampRun(r, stepSize, c.minRange, c.maxRange, n).value, c.minScale, c.maxScale)
  {
    RampStaysInRange(r, stepSize, c.minRange, c.maxRange, n);
  }

  // ---------------------------------------------------------------------
  // Configuration writes
  // ---------------------------------------------------------------------

  /** The value carried by a write: a double, a boolean, or a value of some other type. */
  datatype WriteValue = DoubleValue(d: real) | BooleanValue(b: bool) | OtherValue

  /** Browse names of the writable configuration points. */
  const STEP_SIZE: string := "StepSize"
  const SIMULATION_ACTIVE: string := "SimulationActive"
  const SINE_WAVE: string := "SineWave"
  const SAWTOOTH_WAVE: string := "SawtoothWave"
  const OVERFLOW: string := "Overflow"
  const UNDERFLOW: string := "Underflow"

  /** The flag-typed writable points. */
  predicate IsFlagName(name: string)
  {
    name == SIMULATION_ACTIVE || name == SINE_WAVE || name == SAWTOOTH_WAVE || name == OVERFLOW || name == UNDERFLOW
  }

  /**
   * The configuration after a write of `v` to the point named `name`: the
   * step size takes doubles, the flags take booleans, a value of the wrong
   * type or an unknown name changes nothing, and setting one flag of an
   * exclusive pair clears the other.
   */
  function ApplyWrite(c: TransmitterConfig, name: string, v: WriteValue): (r: TransmitterConfig)
    ensures r.minRange == c.minRange && r.maxRange == c.maxRange
    ensures r.minScale == c.minScale && r.maxScale == c.maxScale
    ensures name != STEP_SIZE && !IsFlagName(name) ==> r == c
    ensures name == STEP_SIZE && !v.DoubleValue? ==> r == c
    ensures IsFlagName(name) && !v.BooleanValue? ==> r == c
    ensures FlagsExclusive(c) ==> FlagsExclusive(r)
  {
    if name == STEP_SIZE then
      if v.DoubleValue? then c.(stepSize := v.d) else c
    else if !v.BooleanValue? then c
    else if name == SIMULATION_ACTIVE then c.(simulationActive := v.b)
    else if name == SINE_WAVE then
      c.(sineWave := v.b, sawtoothWave := if v.b then false else c.sawtoothWave)
    else if name == SAWTOOTH_WAVE then
      c.(sawtoothWave := v.b, sineWave := if v.b then false else c.sineWave)
    else if name == OVERFLOW then
      c.(overflow := v.b, underflow := if v.b then false else c.underflow)
    else if name == UNDERFLOW then
      c.(underflow := v.b, overflow := if v.b then false else c.overflow)
    else c
  }

  /** Last write wins: the written flag takes the value, a `true` clears its partner, and nothing else changes. */
  lemma WriteFlagClearsPartner(c: TransmitterConfig, b: bool)
    ensures var r := ApplyWrite(c, SINE_WAVE, BooleanValue(b));
      r.sineWave == b && r.sawtoothWave == (!b && c.sawtoothWave) && r.overflow == c.overflow && r.underflow == c.underflow
    ensures var r := ApplyWrite(c, SAWTOOTH_WAVE, BooleanValue(b));
      r.sawtoothWave == b && r.sineWave == (!b && c.sineWave) && r.overflow == c.overflow && r.underflow == c.underflow
    ensures var r := ApplyWrite(c, OVERFLOW, BooleanValue(b));
      r.overflow == b && r.underflow == (!b && c.underflow) && r.sineWave == c.sineWave && r.sawtoothWave == c.sawtoothWave
    ensures var r := ApplyWrite(c, UNDERFLOW, BooleanValue(b));
      r.underflow == b && r.overflow == (!b && c.overflow) && r.sineWave == c.sineWave && r.sawtoothWave == c.sawtoothWave
    ensures ApplyWrite(c, SINE_WAVE, BooleanValue(b)) == c.(sineWave := b, sawtoothWave := !b && c.sawtoothWave)
    ensures ApplyWrite(c, SAWTOOTH_WAVE, BooleanValue(b)) == c.(sawtoothWave := b, sineWave := !b && c.sineWave)
    ensures ApplyWrite(c, OVERFLOW, BooleanValue(b)) == c.(overflow := b, underflow := !b && c.underflow)
    ensures ApplyWrite(c, UNDERFLOW, BooleanValue(b)) == c.(underflow := b, overflow := !b && c.overflow)
  {
  }

  /** Writes of the step size and of the activation flag touch only their own field. */
  lemma WriteStepAndActivation(c: TransmitterConfig, d: real, b: bool)
    ensures ApplyWrite(c, STEP_SIZE, DoubleValue(d)) == c.(stepSize := d)
    ensures ApplyWrite(c, SIMULATION_ACTIVE, BooleanValue(b)) == c.(simulationActive := b)
  {
  }

  // ---------------------------------------------------------------------
  // The transmitter
  // ---------------------------------------------------------------------

  class Transmitter {
    var config: TransmitterConfig
    var state: TransmitterState
    /** Direction of the ramp; kept per transmitter rather than in a function-local static. */
    var increasing: bool

    /** Defaults: range 0..100, scale -5..105, step 1, inactive, sawtooth selected, ramp rising. */
    constructor Init()
      ensures config == TransmitterConfig(0.0, 100.0, -5.0, 105.0, 1.0, false, false, true, false, false)
      ensures state == TransmitterState(0.0, 0.0, false)
      ensures increasing
      ensures FlagsExclusive(config)
    {
      config := TransmitterConfig(0.0, 100.0, -5.0, 105.0, 1.0, false, false, true, false, false);
      state := TransmitterState(0.0, 0.0, false);
      increasing := true;
    }

    /**
     * One cycle of `cycleTimeMs` milliseconds. Nothing happens while the
     * simulation is inactive; otherwise the clock advances, a forced overflow
     * or underflow pins the value to a scale bound (leaving the fault flag as
     * it was), and otherwise the sine, sawtooth or ramp, in that order of
     * precedence, produces the value and the fault flag is recomputed.
     */
    method Update(cycleTimeMs: uint32, sin: real -> real, fmod: (real, real) -> real)
      modifies this
      ensures config == old(config)
      ensures !config.simulationActive ==> state == old(state) && increasing == old(increasing)
      ensures config.simulationActive ==>
                state.simulationTime == old(state.simulationTime) + TimeStep(cycleTimeMs)
      ensures config.simulationActive && (config.overflow || config.underflow) ==>
                && state.currentValue == (if config.overflow then config.maxScale else config.minScale)
                && state.fault == old(state.fault)
                && increasing == old(increasing)
      ensures config.simulationActive && !config.overflow && !config.underflow ==>
                state.fault == OutOfScale(state.currentValue, config.minScale, config.maxScale)
      ensures config.simulationActive && !config.overflow && !config.underflow && config.sineWave ==>
                && state.currentValue == SineValue(config.minRange, config.maxRange, state.simulationTime, sin)
                && increasing == old(increasing)
      ensures config.simulationActive && !config.overflow && !config.underflow && !config.sineWave && config.sawtoothWave ==>
                && state.currentValue == SawtoothValue(config.minRange, config.maxRange, state.simulationTime, fmod)
                && increasing == old(increasing)
      ensures config.simulationActive && !config.overflow && !config.underflow && !config.sineWave && !config.sawtoothWave ==>
                RampState(state.currentValue, increasing) ==
                RampStep(RampState(old(state.currentValue), old(increasing)), config.stepSize, config.minRange, config.maxRange)
    {
      if !config.simulationActive {
        return;
      }
      var timeStep := cycleTimeMs as real / 1000.0;
      state := state.(simulationTime := state.simulationTime + timeStep);

      if config.overflow {
        state := state.(currentValue := config.maxScale);
        return;
      }
      if config.underflow {
        state := state.(currentValue := config.minScale);
        return;
      }

      if config.sineWave {
        var half := (config.maxRange - config.minRange) / 2.0;
        state := state.(currentValue := config.minRange + half * (1.0 + sin(2.0 * PI * SINE_FREQUENCY * state.simulationTime)));
      } else if config.sawtoothWave {
        var period := SAWTOOTH_PERIOD;
        var phase := fmod(state.simulationTime, period) / period;
        state := state.(currentValue := config.minRange + (config.maxRange - config.minRange) * phase);
      } else {
        if increasing {
          state := state.(currentValue := state.currentValue + config.stepSize);
          if state.currentValue >= config.maxRange {
            increasing := false;
            state := state.(currentValue := config.maxRange);
          }
        } else {
          state := state.(currentValue := state.currentValue - config.stepSize);
          if state.currentValue <= config.minRange {
            increasing := true;
            state := state.(currentValue := config.minRange);
          }
        }
      }

      state := state.(fault := state.currentValue < config.minScale || state.currentValue > config.maxScale);
    }

    /** A write of `v` to the configuration point `name`; the state is not touched. */
    method OnConfigChanged(name: string, v: WriteValue)
      modifies this
      ensures config == ApplyWrite(old(config), name, v)
      ensures state == old(state) && increasing == old(increasing)
    {
      if name == STEP_SIZE {
        if v.DoubleValue? {
          config := config.(stepSize := v.d);
        }
      } else if name == SIMULATION_ACTIVE {
        if v.BooleanValue? {
          config := config.(simulationActive := v.b);
        }
      } else if name == SINE_WAVE {
        if v.BooleanValue? {
          config := config.(sineWave := v.b);
          if config.sineWave {
            config := config.(sawtoothWave := false);
          }
        }
      } else if name == SAWTOOTH_WAVE {
        if v.BooleanValue? {
          config := config.(sawtoothWave := v.b);
          if config.sawtoothWave {
            config := config.(sineWave := false);
          }
        }
      } else if name == OVERFLOW {
        if v.BooleanValue? {
          config := config.(overflow := v.b);
          if config.overflow {
            config := config.(underflow := false);
          }
        }
      } else if name == UNDERFLOW {
        if v.BooleanValue? {
          config := config.(underflow := v.b);
          if config.underflow {
            config := config.(overflow := false);
          }
        }
      }
    }
  }
}
