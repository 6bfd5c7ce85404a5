/**
 * The modulating flow-control valve: the control signal passes through an
 * instrumentation-error pipeline (dead time, stiction, hysteresis, positioner
 * bias) to a valve opening, and a characteristic curve turns the opening into
 * flow. Doubles are modelled as reals; `pow` and `sqrt` are the caller's.
 */
module ControlValveFlow {
  import opened Uint

  function Max(a: real, b: real): (m: real) { if a >= b then a else b }

  function Min(a: real, b: real): (m: real) { if a <= b then a else b }

  function Abs(x: real): (r: real) { if x < 0.0 then -x else x }

  /** `fmin(fmax(x, 0.0), 100.0)`: the clamp applied to signals and openings. */
  function ClampPercent(x: real): (r: real)
    ensures 0.0 <= r <= 100.0
    ensures 0.0 <= x <= 100.0 ==> r == x
    ensures x < 0.0 ==> r == 0.0
    ensures x > 100.0 ==> r == 100.0
  {
    Min(Max(x, 0.0), 100.0)
  }

  lemma ClampPercentMonotone(x: real, y: real)
    requires x <= y
    ensures ClampPercent(x) <= ClampPercent(y)
  {
  }

  datatype ValveConfig = ValveConfig(
    controlSignal: real,
    upstreamPressure: real,
    kv: real,
    valveCharacteristic: int)

  datatype ValveOutput = ValveOutput(valveOpening: real, flow: real)

  /** The error model's parameters and the memory it carries from one cycle to the next. */
  datatype ErrorModel = ErrorModel(
    stictionThreshold: real,
    deadTimeSeconds: real,
    hysteresisPercent: real,
    positionerErrorPercent: real,
    lastControlSignal: real,
    lastUpdateTime: real)

  // ---------------------------------------------------------------------
  // The error pipeline as functions
  // ---------------------------------------------------------------------

  /** Whether the dead-time gate holds back an update made at time `now`. */
  predicate InDeadTime(e: ErrorModel, now: real): (held: bool)
    ensures e.deadTimeSeconds <= 0.0 && now >= e.lastUpdateTime ==> !held
  {
    now - e.lastUpdateTime < e.deadTimeSeconds
  }

  /** Stiction: a command within the threshold of the last one leaves the last one in force. */
  function StictionFiltered(signal: real, last: real, threshold: real): (r: real)
    ensures r == signal || r == last
    ensures Abs(signal - last) < threshold ==> r == last
    ensures Abs(signal - last) >= threshold ==> r == signal
    ensures threshold <= 0.0 ==> r == signal
  {
    if Abs(signal - last) < threshold then last else signal
  }

  /** Hysteresis: an offset in the direction the command moved since the last cycle. */
  function HysteresisOffset(signal: real, last: real, hysteresisPercent: real): (h: real)
    ensures h == 0.0 || h == hysteresisPercent || h == -hysteresisPercent
    ensures signal == last ==> h == 0.0
    ensures signal > last ==> h == hysteresisPercent
    ensures signal < last ==> h == -hysteresisPercent
    ensures hysteresisPercent >= 0.0 && signal > last ==> h >= 0.0
    ensures hysteresisPercent >= 0.0 && signal < last ==> h <= 0.0
  {
    if signal > last then hysteresisPercent
    else if signal < last then -hysteresisPercent
    else 0.0
  }

  /**
   * The command an update remembers for the next cycle: the clamped control signal
   * after stiction, before the hysteresis offset is added.
   */
  function RememberedSignal(controlSignal: real, e: ErrorModel): (r: real)
    ensures r == ClampPercent(controlSignal) || r == e.lastControlSignal
    ensures Abs(ClampPercent(controlSignal) - e.lastControlSignal) < e.stictionThreshold ==> r == e.lastControlSignal
    ensures Abs(ClampPercent(controlSignal) - e.lastControlSignal) >= e.stictionThreshold ==> r == ClampPercent(controlSignal)
  {
    StictionFiltered(ClampPercent(controlSignal), e.lastControlSignal, e.stictionThreshold)
  }

  /** The positioner's multiplicative bias. */
  function PositionerBias(signal: real, positionerErrorPercent: real): (biased: real)
    ensures positionerErrorPercent == 0.0 ==> biased == signal
    ensures signal > 0.0 && positionerErrorPercent > 0.0 ==> biased > signal
    ensures signal > 0.0 && positionerErrorPercent < 0.0 ==> biased < signal
  {
    signal * (1.0 + positionerErrorPercent / 100.0)
  }

  /**
   * The valve opening an update that passes the dead-time gate produces: stiction,
   * hysteresis and a clamp, then the positioner's multiplicative bias and a second clamp.
   */
  function PipelineOpening(controlSignal: real, e: ErrorModel): (opening: real)
    ensures 0.0 <= opening <= 100.0
  {
    var filtered := RememberedSignal(controlSignal, e);
    var offset := ClampPercent(filtered + HysteresisOffset(filtered, e.lastControlSignal, e.hysteresisPercent));
    ClampPercent(PositionerBias(offset, e.positionerErrorPercent))
  }

  /** With every error term zero, the opening is the control signal clamped to [0, 100]. */
  lemma NoErrorsOpeningIsClampedSignal(controlSignal: real, e: ErrorModel)
    requires e.stictionThreshold == 0.0 && e.hysteresisPercent == 0.0 && e.positionerErrorPercent == 0.0
    ensures RememberedSignal(controlSignal, e) == ClampPercent(controlSignal)
    ensures PipelineOpening(controlSignal, e) == ClampPercent(controlSignal)
  {
  }

  /** A command within the stiction threshold of the last one does not move the valve off it. */
  lemma StictionHoldsLastCommand(controlSignal: real, e: ErrorModel)
    requires Abs(ClampPercent(controlSignal) - e.lastControlSignal) < e.stictionThreshold
    ensures RememberedSignal(controlSignal, e) == e.lastControlSignal
    ensures PipelineOpening(controlSignal, e)
         == ClampPercent(ClampPercent(e.lastControlSignal) * (1.0 + e.positionerErrorPercent / 100.0))
  {
  }

  /**
   * Without positioner bias and with a non-negative hysteresis band, a rising command
   * opens the valve at least as far as the command and a falling one at most as far;
   * an unchanged command is followed exactly.
   */
  lemma HysteresisFollowsDirection(controlSignal: real, e: ErrorModel)
    requires e.positionerErrorPercent == 0.0 && e.hysteresisPercent >= 0.0
    ensures var filtered := RememberedSignal(controlSignal, e);
      && (filtered > e.lastControlSignal ==> PipelineOpening(controlSignal, e) >= ClampPercent(filtered))
      && (filtered < e.lastControlSignal ==> PipelineOpening(controlSignal, e) <= ClampPercent(filtered))
      && (filtered == e.lastControlSignal ==> PipelineOpening(controlSignal, e) == ClampPercent(filtered))
    ensures var filtered := RememberedSignal(controlSignal, e);
      && (filtered > e.lastControlSignal && filtered + e.hysteresisPercent <= 100.0 ==>
            PipelineOpening(controlSignal, e) == filtered + e.hysteresisPercent)
      && (filtered < e.lastControlSignal && filtered - e.hysteresisPercent >= 0.0 ==>
            PipelineOpening(controlSignal, e) == filtered - e.hysteresisPercent)
  {
    var filtered := RememberedSignal(controlSignal, e);
    var offset := HysteresisOffset(filtered, e.lastControlSignal, e.hysteresisPercent);
    if filtered > e.lastControlSignal {
      ClampPercentMonotone(filtered, filtered + offset);
    } else if filtered < e.lastControlSignal {
      ClampPercentMonotone(filtered + offset, filtered);
    }
  }

  // ---------------------------------------------------------------------
  // Characteristic curve and flow
  // ---------------------------------------------------------------------

  /** The rangeability of the equal-percentage curve. */
  const RANGEABILITY: real := 50.0

  /** The fraction of full capacity at an opening: linear for characteristic 0, equal-percentage otherwise. */
  function FlowFraction(opening: real, valveCharacteristic: int, pow: (real, real) -> real): (f: real)
    ensures valveCharacteristic == 0 && 0.0 <= opening <= 100.0 ==> 0.0 <= f <= 1.0
  {
    if valveCharacteristic == 0 then opening / 100.0
    else (pow(RANGEABILITY, opening / 100.0) - 1.0) / (RANGEABILITY - 1.0)
  }

  /**
   * The equal-percentage curve runs from 0 when shut to 1 when fully open, and stays
   * in [0, 1] wherever R^x lies between 1 and R.
   */
  lemma EqualPercentageEnds(valveCharacteristic: int, opening: real, pow: (real, real) -> real)
    requires valveCharacteristic != 0
    ensures pow(RANGEABILITY, 0.0) == 1.0 ==> FlowFraction(0.0, valveCharacteristic, pow) == 0.0
    ensures pow(RANGEABILITY, 1.0) == RANGEABILITY ==> FlowFraction(100.0, valveCharacteristic, pow) == 1.0
    ensures 1.0 <= pow(RANGEABILITY, opening / 100.0) <= RANGEABILITY ==>
      0.0 <= FlowFraction(opening, valveCharacteristic, pow) <= 1.0
  {
  }

  /** `kv * f * sqrt(upstream_pressure - 1.0)`: flow against a fixed 1-bar downstream pressure. */
  function Flow(kv: real, fraction: real, upstreamPressure: real, sqrt: real -> real): (q: real)
    ensures kv == 0.0 || fraction == 0.0 ==> q == 0.0
  {
    kv * fraction * sqrt(upstreamPressure - 1.0)
  }

  /**
   * Flow is non-negative when the upstream pressure is at least the 1-bar reference,
   * the sizing coefficient and the fraction are non-negative and `sqrt` is.
   */
  lemma FlowNonNegative(kv: real, fraction: real, upstreamPressure: real, sqrt: real -> real)
    requires kv >= 0.0 && fraction >= 0.0 && upstreamPressure >= 1.0
    requires sqrt(upstreamPressure - 1.0) >= 0.0
    ensures Flow(kv, fraction, upstreamPressure, sqrt) >= 0.0
  {
    var root := sqrt(upstreamPressure - 1.0);
    assert kv * fraction >= 0.0;
    assert (kv * fraction) * root >= 0.0;
  }

  // ---------------------------------------------------------------------
  // The valve record, updated in place
  // ---------------------------------------------------------------------

  class FlowControlValve {
    var config: ValveConfig
    var state: ValveOutput
    var error: ErrorModel

    predicate OpeningInRange()
      reads this
    {
      0.0 <= state.valveOpening <= 100.0
    }

    /** Zeroes the record, then sets the default configuration and error model. */
    constructor Init()
      ensures config == ValveConfig(50.0, 5.0, 10.0, 1)
      ensures state == ValveOutput(50.0, 0.0)
      ensures error == ErrorModel(0.5, 0.0, 0.0, 0.0, 50.0, 0.0)
      ensures OpeningInRange()
    {
      var defaults := ValveConfig(50.0, 5.0, 10.0, 1);
      config := defaults;
      state := ValveOutput(defaults.controlSignal, 0.0);
      error := ErrorModel(0.5, 0.0, 0.0, 0.0, defaults.controlSignal, 0.0);
    }

    /**
     * One scheduler cycle at time `now` (the cycle time is not used). Inside the dead
     * time nothing changes; otherwise the update time becomes `now`, the remembered
     * command and the opening are those of the pipeline, and flow follows the curve.
     * The configuration and the error parameters are never written.
     */
    method Update(cycleTimeMs: uint32, now: real, pow: (real, real) -> real, sqrt: real -> real)
      modifies this
      ensures config == old(config)
      ensures error.stictionThreshold == old(error.stictionThreshold)
      ensures error.deadTimeSeconds == old(error.deadTimeSeconds)
      ensures error.hysteresisPercent == old(error.hysteresisPercent)
      ensures error.positionerErrorPercent == old(error.positionerErrorPercent)
      ensures old(InDeadTime(error, now)) ==> state == old(state) && error == old(error)
      ensures !old(InDeadTime(error, now)) ==>
        && error.lastUpdateTime == now
        && error.lastControlSignal == RememberedSignal(config.controlSignal, old(error))
        && state.valveOpening == PipelineOpening(config.controlSignal, old(error))
        && state.flow
           == Flow(config.kv, FlowFraction(state.valveOpening, config.valveCharacteristic, pow),
                   config.upstreamPressure, sqrt)
      ensures !old(InDeadTime(error, now)) || old(OpeningInRange()) ==> OpeningInRange()
    {
      var controlSignal := ClampPercent(config.controlSignal);

      if now - error.lastUpdateTime < error.deadTimeSeconds {
        return;
      }

      ghost var before := error;
      error := error.(lastUpdateTime := now);

      if Abs(controlSignal - error.lastControlSignal) < error.stictionThreshold {
        controlSignal := error.lastControlSignal;
      }

      var hysteresis := 0.0;
      if controlSignal > error.lastControlSignal {
        hysteresis := error.hysteresisPercent;
      } else if controlSignal < error.lastControlSignal {
        hysteresis := -error.hysteresisPercent;
      }

      assert controlSignal == RememberedSignal(config.controlSignal, before);
      assert hysteresis == HysteresisOffset(controlSignal, before.lastControlSignal, before.hysteresisPercent);
      error := error.(lastControlSignal := controlSignal);
      controlSignal := controlSignal + hysteresis;
      controlSignal := ClampPercent(controlSignal);

      state := state.(valveOpening := PositionerBias(controlSignal, error.positionerErrorPercent));
      state := state.(valveOpening := ClampPercent(state.valveOpening));
      assert state.valveOpening == PipelineOpening(config.controlSignal, before);

      ApplyCharacteristic(pow, sqrt);
    }

    /**
     * The last stage of an update: picks the linear (characteristic 0) or the
     * equal-percentage curve and sets the flow through the current opening.
     */
    method ApplyCharacteristic(pow: (real, real) -> real, sqrt: real -> real)
      modifies this
      ensures config == old(config) && error == old(error)
      ensures state.valveOpening == old(state.valveOpening)
      ensures state.flow
           == Flow(config.kv, FlowFraction(state.valveOpening, config.valveCharacteristic, pow),
                   config.upstreamPressure, sqrt)
    {
      var fOpening := 0.0;
      if config.valveCharacteristic == 0 {
        fOpening := state.valveOpening / 100.0;
      } else {
        fOpening := (pow(RANGEABILITY, state.valveOpening / 100.0) - 1.0) / (RANGEABILITY - 1.0);
      }

      var cvEff := config.kv * fOpening;
      var deltaP := config.upstreamPressure - 1.0;
      state := state.(flow := cvEff * sqrt(deltaP));
    }
  }
}
