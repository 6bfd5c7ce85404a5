# Process-equipment simulation models in Dafny

This project models the simulation cores of three field devices. Each device is
published over OPC UA in the original C code, and each is modelled here with
its own state record and its own update step:

- **On/off shutdown valve** (`source/valve_control_opcua.c`, module `ValveControl`).
  A solenoid-operated actuator with the states CLOSED, OPENING, OPEN, CLOSING and
  FAULT. It is sequenced by the AND of its configured solenoid commands. A travel
  timer advances by the scheduler's cycle time, as a `uint32_t` that wraps modulo 2^32.
- **Modulating flow-control valve** (`source/Control_valve_flow.c`, module `ControlValveFlow`).
  The control signal passes through an instrumentation-error pipeline to give the
  valve opening. The stages are a dead-time gate, stiction, hysteresis, a clamp to
  [0, 100], a multiplicative positioner bias and a second clamp. A linear or an
  equal-percentage (R = 50) characteristic then gives the flow
  `kv * f * sqrt(upstream_pressure - 1)`.
- **Analog transmitter signal generator** (`source/transmitter_opcua.c`, module `TransmitterModel`).
  It advances a simulation clock and produces one of three waveforms, in this order
  of precedence: a 0.1 Hz sine, a 10 s sawtooth, or a triangular ramp. Forced
  overflow or underflow pins the value to a scale bound. The fault flag marks an
  out-of-scale value. Configuration writes keep each pair of mode flags
  mutually exclusive by "last write wins".

Each C record (`OnOffValve`, `FlowControlValve`, `Transmitter`) is a Dafny `class`.
Its nested C structs (`param`/`state`/`io`, `config`/`state`/`error`) are fields of
datatype type, and the update methods reassign those fields. The valve's three
`bool[3]` arrays are `array<bool>` fields. Field names are the C names in camelCase
(`travel_time_ms` is `travelTimeMs`). Every update method is specified against a
pure function of the old state: `Next`, `PipelineOpening`/`RememberedSignal`/`Flow`,
`RampStep`, `SineValue`/`SawtoothValue` and `ApplyWrite`. The lemmas then state
what the C code promises about those functions, over one step and over many.

The C code works with `double`, `uint8_t` and `uint32_t`:

- `double` is modelled as `real`.
- `uint8_t` and `uint32_t` are subset types of `int`, and the `+=` on
  `state_timer` is written out as `AddU32` (addition modulo 2^32).
- The processor-time reading `clock() / CLOCKS_PER_SEC` (the CPU time the process has
  used, not wall-clock time) is the `now` parameter of the flow update. The dead time is
  therefore counted in that clock's seconds; the model leaves `now` unconstrained.
- The C library's `pow`, `sqrt`, `sin` and `fmod` are function-valued parameters.
  Properties that depend on them carry the needed facts about their values as hypotheses.

## Model

| member | source | states |
|---|---|---|
| ValveControl.StateName | source/valve_control_opcua.c:73-82 | each of the five states has its symbolic name; none of them falls through to "UNKNOWN" |
| ValveControl.StateNameInjective | source/valve_control_opcua.c:73-82 | distinct states are published under distinct names |
| ValveControl.AllSolenoidsEnergized | source/valve_control_opcua.c:86-93 | the loop with early `break` returns true exactly when every one of the first `solenoid_count` commands is set |
| ValveControl.Next | source/valve_control_opcua.c:96-141 | the switch on the current state: each update keeps the state or advances it one place along CLOSED→OPENING→OPEN→CLOSING→CLOSED (FAULT→CLOSED), and never sets the fault flag or the reset command |
| ValveControl.ClosedStep | source/valve_control_opcua.c:97-103 | from CLOSED the valve starts OPENING (timer 0, moving) if and only if all solenoids are energised; otherwise nothing changes |
| ValveControl.OpenStep | source/valve_control_opcua.c:113-119 | from OPEN the valve starts CLOSING (timer 0, moving) if and only if some solenoid is de-energised; otherwise nothing changes |
| ValveControl.TravelStep | source/valve_control_opcua.c:105-127 | while OPENING/CLOSING the timer advances by the cycle time modulo 2^32; the valve arrives (OPEN/CLOSED, not moving) exactly when the timer reaches the travel time; otherwise only the timer changes |
| ValveControl.FaultStep | source/valve_control_opcua.c:129-135 | FAULT is held without a reset command; a reset returns to CLOSED and clears both the fault flag and the reset command |
| ValveControl.NoShortcut | source/valve_control_opcua.c:96-141 | consequences of the one-place rule: CLOSED never jumps to OPEN, OPEN never to CLOSED, and no update enters FAULT or raises the fault flag |
| ValveControl.SolenoidsIgnoredUnlessAtRest | source/valve_control_opcua.c:105-135 | while travelling or faulted the solenoid commands do not affect the update |
| ValveControl.NextPreservesConsistent | source/valve_control_opcua.c:96-141 | one update keeps the valve out of FAULT, the fault flag clear, and `valve_moving` set exactly while OPENING/CLOSING |
| ValveControl.RunPreservesConsistent | source/valve_control_opcua.c:85-142 | the same invariant holds after any number of updates |
| ValveControl.FaultHeldWithoutReset | source/valve_control_opcua.c:129-135 | without a reset command a faulted valve stays exactly as it is over any number of updates |
| ValveControl.TravelTimeline | source/valve_control_opcua.c:105-127 | while the accumulated cycle time stays below the travel time, n updates leave the valve travelling with the timer advanced by n cycles |
| ValveControl.TravelCompletes | source/valve_control_opcua.c:105-127 | the update on which the accumulated time first reaches the travel time completes the motion and stops the moving indicator |
| ValveControl.OpensAfterTravelTime | source/valve_control_opcua.c:97-111 | from CLOSED with all solenoids energised the valve is OPENING after every update until the travel time has elapsed, and OPEN on the update that reaches it |
| ValveControl.OnOffValve.Init | source/valve_control_opcua.c:64-70 | zeroed record with three solenoids, 5000 ms travel time and CLOSED current and target states, which satisfies the invariant above |
| ValveControl.OnOffValve.Update | source/valve_control_opcua.c:85-142 | the written fields become `Next` of the old ones, with the AND of the configured solenoid commands; parameters, target state, ESD latch, limit switches and the solenoid arrays are unchanged |
| ControlValveFlow.ClampPercent | source/Control_valve_flow.c:71 | the result lies in [0, 100], equals the input inside that range, and is the nearer bound outside it |
| ControlValveFlow.InDeadTime | source/Control_valve_flow.c:73 | the dead-time gate: with no positive dead time an update that does not go back in time is never held back |
| ControlValveFlow.StictionFiltered | source/Control_valve_flow.c:78-79 | a change smaller than the threshold leaves the last command, a change of at least the threshold is followed, and a non-positive threshold disables stiction |
| ControlValveFlow.HysteresisOffset | source/Control_valve_flow.c:81-86 | the offset is +hysteresis_percent when the command rose since the last cycle, −hysteresis_percent when it fell, and 0 when it is unchanged |
| ControlValveFlow.RememberedSignal | source/Control_valve_flow.c:78-87 | the command remembered for the next cycle is the clamped signal or the previous command: the previous one exactly when the change is within the stiction threshold, the clamped signal otherwise |
| ControlValveFlow.PositionerBias | source/Control_valve_flow.c:91 | the positioner error scales the command: no change at 0 %; a positive command becomes larger under a positive error and smaller under a negative one |
| ControlValveFlow.PipelineOpening | source/Control_valve_flow.c:71-92 | the opening produced by the error pipeline always lies in [0, 100] |
| ControlValveFlow.NoErrorsOpeningIsClampedSignal | source/Control_valve_flow.c:71-92 | with zero stiction, hysteresis and positioner error, the opening is the control signal clamped to [0, 100] |
| ControlValveFlow.StictionHoldsLastCommand | source/Control_valve_flow.c:78-92 | a change within the stiction threshold leaves the previous command in force, and the opening is that command under the positioner bias, clamped |
| ControlValveFlow.HysteresisFollowsDirection | source/Control_valve_flow.c:81-89 | without positioner bias and with a non-negative band, a rising command opens the valve exactly hysteresis_percent beyond the command and a falling one exactly hysteresis_percent short of it whenever the result stays within [0, 100] (at least / at most as far otherwise), and an unchanged command is followed exactly |
| ControlValveFlow.FlowFraction | source/Control_valve_flow.c:94-100 | the linear characteristic gives a fraction in [0, 1] for every opening in [0, 100] |
| ControlValveFlow.EqualPercentageEnds | source/Control_valve_flow.c:97-100 | the equal-percentage curve is 0 when shut and 1 when fully open, and lies in [0, 1] wherever R^x lies in [1, R] |
| ControlValveFlow.Flow | source/Control_valve_flow.c:102-104 | `kv * f * sqrt(upstream_pressure - 1)`: no flow through a shut valve (fraction 0) or with a zero sizing coefficient |
| ControlValveFlow.FlowNonNegative | source/Control_valve_flow.c:102-104 | flow is non-negative when kv and the fraction are, the upstream pressure is at least the 1-bar reference and the square root is non-negative |
| ControlValveFlow.FlowControlValve.Init | source/Control_valve_flow.c:47-65 | the default configuration (50 %, 5 bar, kv 10, equal-percentage), opening 50, flow 0 and the default error model, with the opening in range |
| ControlValveFlow.FlowControlValve.Update | source/Control_valve_flow.c:67-105 | inside the dead time nothing changes; otherwise the update time becomes `now`, the remembered command and the opening are those of the pipeline and the flow follows the characteristic; the configuration and the error parameters are never written, and the opening stays in [0, 100] |
| ControlValveFlow.FlowControlValve.ApplyCharacteristic | source/Control_valve_flow.c:94-104 | sets the flow through the current opening by the selected characteristic and changes nothing else |
| TransmitterModel.TimeStep | source/transmitter_opcua.c:69 | the clock advances by the cycle time in seconds: non-negative, and 0.1 s for the default 100 ms cycle |
| TransmitterModel.OutOfScale | source/transmitter_opcua.c:110-111 | the fault test uses strict comparisons, so the scale bounds themselves are in scale (unless the scale is inverted) |
| TransmitterModel.SineValue | source/transmitter_opcua.c:82-86 | the sine wave is at the middle of the range when the sine is 0, at max_range when it is 1 and at min_range when it is -1 |
| TransmitterModel.SineWithinRange | source/transmitter_opcua.c:82-86 | whenever the sine is in [-1, 1], the sine wave lies within [min_range, max_range] |
| TransmitterModel.SawtoothWithinRange | source/transmitter_opcua.c:87-92 | whenever the remainder is in [0, 10), the sawtooth lies in [min_range, max_range] and below max_range for a non-empty range |
| TransmitterModel.SawtoothValue | source/transmitter_opcua.c:87-92 | the sawtooth is at min_range at the start of each 10 s period and at mid-range half-way through it |
| TransmitterModel.RampStep | source/transmitter_opcua.c:93-107 | a step moves by step_size in the current direction; the direction flips exactly when the bound in that direction is reached or passed, and the value then sits on that bound; a non-negative step keeps an in-range value in range |
| TransmitterModel.RampStaysInRange | source/transmitter_opcua.c:93-107 | with a non-negative step, a ramp started within the range stays within it over any number of cycles |
| TransmitterModel.RampClimbs | source/transmitter_opcua.c:95-100 | a rising ramp that does not reach max_range within n cycles has climbed by exactly n steps and is still rising |
| TransmitterModel.RampDescends | source/transmitter_opcua.c:101-106 | a falling ramp that does not reach min_range within n cycles has descended by exactly n steps and is still falling |
| TransmitterModel.NegativeStepRunsAway | source/transmitter_opcua.c:95-100 | the step size is written unchecked, and a negative step makes a rising ramp move down forever without reversing |
| TransmitterModel.RampNeverOutOfScale | source/transmitter_opcua.c:93-111 | when the range lies inside the scale, a ramp started in range never raises the fault |
| TransmitterModel.ApplyWrite | source/transmitter_opcua.c:137-168 | a configuration write never touches the range or scale bounds; an unknown name or a value of the wrong type changes nothing; mutually exclusive flag pairs stay exclusive |
| TransmitterModel.WriteFlagClearsPartner | source/transmitter_opcua.c:145-168 | writing a mode flag sets it; writing true clears its partner, writing false leaves the partner alone, and nothing else changes (the other pair, the step size, the activation flag and the bounds keep their values) |
| TransmitterModel.WriteStepAndActivation | source/transmitter_opcua.c:137-144 | writes of StepSize and SimulationActive change only their own field, the step size with any double |
| TransmitterModel.Transmitter.Init | source/transmitter_opcua.c:45-64 | range 0–100, scale −5–105, step 1, inactive, sawtooth selected, value, time and fault zeroed, ramp rising; the flag pairs are exclusive |
| TransmitterModel.Transmitter.Update | source/transmitter_opcua.c:66-112 | inactive: no change; active: the clock advances; forced overflow/underflow pins the value to max_scale/min_scale and leaves the fault flag and ramp direction alone; otherwise sine over sawtooth over ramp gives the value and the fault flag becomes "out of scale". A forced value sits on a scale bound, and the fault flag is not recomputed on the forced path, so a fault raised earlier survives while overflow or underflow is forced |
| TransmitterModel.Transmitter.OnConfigChanged | source/transmitter_opcua.c:114-170 | the configuration becomes `ApplyWrite` of the old one; the state and the ramp direction are untouched |

## Left out

- `source/seperator.c` (the three-phase separator) is not part of this model.
- OPC UA plumbing is not modelled: server start-up, node creation, the publication of
  state by `UA_Server_writeValue` in each `main` loop, the on/off valve's `onValueChanged`
  write callback, and the flow valve's write callback `onConfigChanged` with its helper
  `assignIfMatch` (source/Control_valve_flow.c:107-144). The
  transmitter's write callback is modelled as `OnConfigChanged`, given the browse name
  and a typed value. The callback's early exits (no server, node or value, a
  non-scalar value, an unreadable browse name) change nothing and are not modelled separately.
- `main`, the signal handler, the sleep between cycles and the cyclic scheduler are
  left out. `Run` and `RampRun` stand for successive updates with an unchanged configuration.
- The `!valve` / `!tx` null-pointer checks are not modelled; the Dafny references are never null.
- `ValveControl.OnOffValve.Update`: the C `default:` branch (an unrecognised state
  becomes FAULT with the fault flag set) cannot be reached with a closed datatype of
  five states, so the model has no path into FAULT. FAULT and its reset are still
  modelled and can be set up directly.
- `ControlValveFlow.FlowControlValve.Update`: `cycle_time_ms` is accepted and unused,
  as in the C code. `clock()` is the `now` parameter.
- `ControlValveFlow.FlowControlValve.Update`: lines 94-104 of the update are the
  separate method `ApplyCharacteristic`, which the update calls last. The observable
  behaviour is the same.
- `ControlValveFlow.FlowNonNegative`: the C code takes `sqrt(upstream_pressure - 1)`
  without a guard, so an upstream pressure below 1 bar gives NaN. The model stays
  silent there, and the lemma requires at least 1 bar.
- Floating point is not modelled: there is no rounding, NaN or infinity, and `double` is `real`.
  `pow`, `sqrt`, `sin` and `fmod` are parameters. Range properties of the waveforms and
  curves hold under hypotheses on the values of these functions.
- `TransmitterModel.Transmitter.Update`: the ramp direction is a function-local
  `static` in the C code, shared by every transmitter in the process. Here it is the
  field `increasing` of each transmitter, so two instances do not share it.
- `TransmitterModel.ApplyWrite`: the C code stores any double it is sent as the step
  size (source/transmitter_opcua.c:137-140); nothing keeps the step positive.
  `NegativeStepRunsAway` shows the consequence.
- The transmitter's write callback writes the global `transmitter` record. Here it
  writes the transmitter it is called on.
- The valve's `esd_latching`, `target_state`, `esd_latched`, `solenoids_energized`,
  `solenoid_outputs` and limit switches are never written by `Valve_Update`. They are
  modelled as fields the update leaves unchanged.
