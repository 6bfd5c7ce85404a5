/**
 * The solenoid-operated on/off shutdown valve (the "SVB" function block):
 * a five-state actuator sequenced by the AND of its solenoid commands and
 * timed by a travel timer that advances by the scheduler's cycle time.
 */
module ValveControl {
  import opened Uint

  datatype ValveState = Closed | Opening | Open | Closing | Fault

  /** The symbolic name under which a state is published. */
  function StateName(s: ValveState): (name: string)
    ensures name != "UNKNOWN"
  {
    match s
    case Closed => "CLOSED"
    case Opening => "OPENING"
    case Open => "OPEN"
    case Closing => "CLOSING"
    case Fault => "FAULT"
  }

  /** Distinct states are published under distinct names. */
  lemma StateNameInjective(s: ValveState, t: ValveState)
    ensures StateName(s) == StateName(t) ==> s == t
  {
  }

  // ---------------------------------------------------------------------
  // The transition function
  // ---------------------------------------------------------------------

  /** The fields of the valve record that one update may write. */
  datatype Motion = Motion(
    currentState: ValveState,
    stateTimer: uint32,
    valveMoving: bool,
    fault: bool,
    resetCmd: bool)

  /** Every one of the first `count` solenoid commands is energised. */
  predicate AllEnergized(cmds: seq<bool>, count: nat)
    requires count <= |cmds|
  {
    forall i :: 0 <= i < count ==> cmds[i]
  }

  /** The AND across the configured solenoid channels, stopping at the first de-energised one. */
  method AllSolenoidsEnergized(cmds: array<bool>, count: uint8) returns (all: bool)
    requires count <= cmds.Length
    ensures all == AllEnergized(cmds[..], count)
  {
    all := true;
    var i := 0;
    while i < count
      invariant i <= count
      invariant all
      invariant forall k :: 0 <= k < i ==> cmds[k]
    {
      if !cmds[i] {
        all := false;
        break;
      }
      i := i + 1;
    }
  }

  /** The state a travelling valve reaches when its timer runs out. */
  function Destination(s: ValveState): (d: ValveState)
    requires s == Opening || s == Closing
  {
    if s == Opening then Open else Closed
  }

  /** One update of the state machine, given whether all configured solenoids are energised. */
  function Next(m: Motion, allEnergized: bool, travelTimeMs: uint32, cycleTimeMs: uint32): (r: Motion)
    ensures r.currentState == m.currentState || r.currentState == Successor(m.currentState)
    ensures r.fault ==> m.fault
    ensures r.resetCmd ==> m.resetCmd
  {
    if m.currentState == Closed then
      if allEnergized then m.(currentState := Opening, stateTimer := 0, valveMoving := true) else m
    else if m.currentState == Opening then
      var timer := AddU32(m.stateTimer, cycleTimeMs);
      if timer >= travelTimeMs then m.(currentState := Open, stateTimer := timer, valveMoving := false)
      else m.(stateTimer := timer)
    else if m.currentState == Open then
      if !allEnergized then m.(currentState := Closing, stateTimer := 0, valveMoving := true) else m
    else if m.currentState == Closing then
      var timer := AddU32(m.stateTimer, cycleTimeMs);
      if timer >= travelTimeMs then m.(currentState := Closed, stateTimer := timer, valveMoving := false)
      else m.(stateTimer := timer)
    else
      if m.resetCmd then m.(currentState := Closed, fault := false, resetCmd := false) else m
  }

  /** The next state along the cycle CLOSED, OPENING, OPEN, CLOSING, CLOSED; FAULT resets to CLOSED. */
  function Successor(s: ValveState): (next: ValveState)
  {
    match s
    case Closed => Opening
    case Opening => Open
    case Open => Closing
    case Closing => Closed
    case Fault => Closed
  }

  // ---------------------------------------------------------------------
  // One update
  // ---------------------------------------------------------------------

  /** From CLOSED the valve starts opening exactly when every configured solenoid is energised. */
  lemma ClosedStep(m: Motion, allEnergized: bool, travelTimeMs: uint32, cycleTimeMs: uint32)
    requires m.currentState == Closed
    ensures var r := Next(m, allEnergized, travelTimeMs, cycleTimeMs);
      && (r.currentState == Opening <==> allEnergized)
      && (allEnergized ==> r == m.(currentState := Opening, stateTimer := 0, valveMoving := true))
      && (!allEnergized ==> r == m)
  {
  }

  /** From OPEN the valve starts closing exactly when some configured solenoid is de-energised. */
  lemma OpenStep(m: Motion, allEnergized: bool, travelTimeMs: uint32, cycleTimeMs: uint32)
    requires m.currentState == Open
    ensures var r := Next(m, allEnergized, travelTimeMs, cycleTimeMs);
      && (r.currentState == Closing <==> !allEnergized)
      && (!allEnergized ==> r == m.(currentState := Closing, stateTimer := 0, valveMoving := true))
      && (allEnergized ==> r == m)
  {
  }

  /**
   * While OPENING or CLOSING the timer advances by the cycle time (modulo 2^32),
   * and the valve arrives exactly when the advanced timer reaches the travel time.
   */
  lemma TravelStep(m: Motion, allEnergized: bool, travelTimeMs: uint32, cycleTimeMs: uint32)
    requires m.currentState == Opening || m.currentState == Closing
    ensures var r := Next(m, allEnergized, travelTimeMs, cycleTimeMs);
      && r.stateTimer == AddU32(m.stateTimer, cycleTimeMs)
      && (m.stateTimer + cycleTimeMs < UINT32_MODULUS ==> r.stateTimer == m.stateTimer + cycleTimeMs)
      && (r.currentState == Destination(m.currentState) <==> r.stateTimer >= travelTimeMs)
      && (r.stateTimer >= travelTimeMs ==> !r.valveMoving)
      && (r.stateTimer < travelTimeMs ==> r == m.(stateTimer := r.stateTimer))
      && r.fault == m.fault && r.resetCmd == m.resetCmd
  {
  }

  /** FAULT is left only through a reset command, which the update consumes. */
  lemma FaultStep(m: Motion, allEnergized: bool, travelTimeMs: uint32, cycleTimeMs: uint32)
    requires m.currentState == Fault
    ensures var r := Next(m, allEnergized, travelTimeMs, cycleTimeMs);
      && (!m.resetCmd ==> r == m)
      && (m.resetCmd ==> r.currentState == Closed && !r.fault && !r.resetCmd)
      && r.stateTimer == m.stateTimer && r.valveMoving == m.valveMoving
  {
  }

  /**
   * No update skips a travelling state: each update keeps the state or moves it one
   * place along the cycle, so CLOSED never becomes OPEN, OPEN never becomes CLOSED,
   * and no update enters FAULT or raises the fault flag.
   */
  lemma NoShortcut(m: Motion, allEnergized: bool, travelTimeMs: uint32, cycleTimeMs: uint32)
    ensures var r := Next(m, allEnergized, travelTimeMs, cycleTimeMs);
      && (r.currentState == m.currentState || r.currentState == Successor(m.currentState))
      && (m.currentState == Closed ==> r.currentState != Open)
      && (m.currentState == Open ==> r.currentState != Closed)
      && (r.currentState == Fault ==> m.currentState == Fault)
      && (r.fault ==> m.fault)
  {
  }

  /** Once travelling (or faulted), the solenoid commands have no influence on the update. */
  lemma SolenoidsIgnoredUnlessAtRest(m: Motion, travelTimeMs: uint32, cycleTimeMs: uint32)
    requires m.currentState == Opening || m.currentState == Closing || m.currentState == Fault
    ensures Next(m, true, travelTimeMs, cycleTimeMs) == Next(m, false, travelTimeMs, cycleTimeMs)
  {
  }

  /**
   * The states an initialised valve can be in: never FAULT, no fault flag, and the
   * moving indicator set exactly while OPENING or CLOSING.
   */
  predicate Consistent(m: Motion)
  {
    && m.currentState != Fault
    && !m.fault
    && (m.valveMoving <==> (m.currentState == Opening || m.currentState == Closing))
  }

  lemma NextPreservesConsistent(m: Motion, allEnergized: bool, travelTimeMs: uint32, cycleTimeMs: uint32)
    requires Consistent(m)
    ensures Consistent(Next(m, allEnergized, travelTimeMs, cycleTimeMs))
  {
  }

  // ---------------------------------------------------------------------
  // Several updates
  // ---------------------------------------------------------------------

  /**
   * Successive updates with a fixed travel and cycle time; `energized[k]` says whether
   * all configured solenoids are energised at the k-th update.
   */
  function Run(m: Motion, energized: seq<bool>, travelTimeMs: uint32, cycleTimeMs: uint32): (r: Motion)
    decreases |energized|
  {
    if energized == [] then m
    else Run(Next(m, energized[0], travelTimeMs, cycleTimeMs), energized[1..], travelTimeMs, cycleTimeMs)
  }

  lemma {:induction false} RunSnoc(m: Motion, energized: seq<bool>, last: bool, travelTimeMs: uint32, cycleTimeMs: uint32)
    ensures Run(m, energized + [last], travelTimeMs, cycleTimeMs)
         == Next(Run(m, energized, travelTimeMs, cycleTimeMs), last, travelTimeMs, cycleTimeMs)
    decreases |energized|
  {
    if energized == [] {
      assert energized + [last] == [last];
    } else {
      assert (energized + [last])[1..] == energized[1..] + [last];
      RunSnoc(Next(m, energized[0], travelTimeMs, cycleTimeMs), energized[1..], last, travelTimeMs, cycleTimeMs);
    }
  }

  /** Without a reset command a faulted valve stays exactly as it is, whatever the solenoids do. */
  lemma {:induction false} FaultHeldWithoutReset(m: Motion, energized: seq<bool>, travelTimeMs: uint32, cycleTimeMs: uint32)
    requires m.currentState == Fault && !m.resetCmd
    ensures Run(m, energized, travelTimeMs, cycleTimeMs) == m
    decreases |energized|
  {
    if energized != [] {
      FaultHeldWithoutReset(Next(m, energized[0], travelTimeMs, cycleTimeMs), energized[1..], travelTimeMs, cycleTimeMs);
    }
  }

  /** Consistency holds along every run that starts consistent: FAULT is never reached. */
  lemma {:induction false} RunPreservesConsistent(m: Motion, energized: seq<bool>, travelTimeMs: uint32, cycleTimeMs: uint32)
    requires Consistent(m)
    ensures Consistent(Run(m, energized, travelTimeMs, cycleTimeMs))
    decreases |energized|
  {
    if energized != [] {
      NextPreservesConsistent(m, energized[0], travelTimeMs, cycleTimeMs);
      RunPreservesConsistent(Next(m, energized[0], travelTimeMs, cycleTimeMs), energized[1..], travelTimeMs, cycleTimeMs);
    }
  }

  /** While the accumulated time stays below the travel time, the valve keeps travelling. */
  lemma {:induction false} TravelTimeline(m: Motion, energized: seq<bool>, travelTimeMs: uint32, cycleTimeMs: uint32)
    requires m.currentState == Opening || m.currentState == Closing
    requires m.stateTimer + |energized| * cycleTimeMs < travelTimeMs
    ensures Run(m, energized, travelTimeMs, cycleTimeMs) == m.(stateTimer := m.stateTimer + |energized| * cycleTimeMs)
    decreases |energized|
  {
    if energized != [] {
      var n := |energized| - 1;
      var prefix := energized[..n];
      assert energized == prefix + [energized[n]];
      assert |energized| * cycleTimeMs == n * cycleTimeMs + cycleTimeMs;
      TravelTimeline(m, prefix, travelTimeMs, cycleTimeMs);
      RunSnoc(m, prefix, energized[n], travelTimeMs, cycleTimeMs);
    }
  }

  /** The update on which the accumulated time first reaches the travel time completes the motion. */
  lemma TravelCompletes(m: Motion, energized: seq<bool>, last: bool, travelTimeMs: uint32, cycleTimeMs: uint32)
    requires m.currentState == Opening || m.currentState == Closing
    requires m.stateTimer + |energized| * cycleTimeMs < travelTimeMs
    requires travelTimeMs <= m.stateTimer + (|energized| + 1) * cycleTimeMs < UINT32_MODULUS
    ensures Run(m, energized + [last], travelTimeMs, cycleTimeMs)
         == m.(currentState := Destination(m.currentState),
               stateTimer := m.stateTimer + (|energized| + 1) * cycleTimeMs,
               valveMoving := false)
  {
    TravelTimeline(m, energized, travelTimeMs, cycleTimeMs);
    RunSnoc(m, energized, last, travelTimeMs, cycleTimeMs);
    assert (|energized| + 1) * cycleTimeMs == |energized| * cycleTimeMs + cycleTimeMs;
  }

  /**
   * Starting CLOSED, energising all solenoids and then updating until the accumulated
   * cycle times first reach the travel time: the valve is OPENING after every update
   * before that one and OPEN after it.
   */
  lemma OpensAfterTravelTime(m: Motion, energized: seq<bool>, last: bool, travelTimeMs: uint32, cycleTimeMs: uint32)
    requires m.currentState == Closed
    requires |energized| * cycleTimeMs < travelTimeMs <= (|energized| + 1) * cycleTimeMs < UINT32_MODULUS
    ensures forall k :: 0 <= k <= |energized| ==>
      Run(m, [true] + energized[..k], travelTimeMs, cycleTimeMs).currentState == Opening
    ensures Run(m, [true] + energized + [last], travelTimeMs, cycleTimeMs).currentState == Open
  {
    var opening := Next(m, true, travelTimeMs, cycleTimeMs);
    forall k | 0 <= k <= |energized|
      ensures Run(m, [true] + energized[..k], travelTimeMs, cycleTimeMs).currentState == Opening
    {
      assert ([true] + energized[..k])[1..] == energized[..k];
      MulMonotone(k, |energized|, cycleTimeMs);
      TravelTimeline(opening, energized[..k], travelTimeMs, cycleTimeMs);
    }
    assert ([true] + energized + [last])[1..] == energized + [last];
    TravelCompletes(opening, energized, last, travelTimeMs, cycleTimeMs);
  }

  lemma MulMonotone(a: nat, b: nat, c: nat)
    requires a <= b
    ensures a * c <= b * c
  {
  }

  // ---------------------------------------------------------------------
  // The valve record, updated in place
  // ---------------------------------------------------------------------

  datatype ValveParam = ValveParam(solenoidCount: uint8, esdLatching: bool, travelTimeMs: uint32)

  /** The scalar part of the internal state; `solenoids_energized[3]` is the array field `solenoidsEnergized`. */
  datatype ValveInternal = ValveInternal(
    currentState: ValveState,
    targetState: ValveState,
    stateTimer: uint32,
    esdLatched: bool)

  /** The scalar I/O terminals; the two three-channel arrays are the array fields `solenoidCmds` and `solenoidOutputs`. */
  datatype ValveIo = ValveIo(
    lsOpen: bool,
    lsClose: bool,
    resetCmd: bool,
    valveMoving: bool,
    fault: bool)

  class OnOffValve {
    var param: ValveParam
    var state: ValveInternal
    var io: ValveIo
    var solenoidsEnergized: array<bool>
    var solenoidCmds: array<bool>
    var solenoidOutputs: array<bool>

    /** The three per-solenoid arrays hold three entries; at most three channels are configured. */
    ghost predicate Valid()
      reads this
    {
      && param.solenoidCount <= 3
      && solenoidsEnergized.Length == 3
      && solenoidCmds.Length == 3
      && solenoidOutputs.Length == 3
    }

    /** The fields an update may write. */
    function CurrentMotion(): (m: Motion)
      reads this
    {
      Motion(state.currentState, state.stateTimer, io.valveMoving, io.fault, io.resetCmd)
    }

    /** Zeroes the record, then configures three solenoids and a 5000 ms travel time. */
    constructor Init()
      ensures Valid()
      ensures param == ValveParam(3, false, 5000)
      ensures state == ValveInternal(Closed, Closed, 0, false)
      ensures io == ValveIo(false, false, false, false, false)
      ensures fresh(solenoidsEnergized) && fresh(solenoidCmds) && fresh(solenoidOutputs)
      ensures solenoidsEnergized[..] == [false, false, false]
      ensures solenoidCmds[..] == [false, false, false]
      ensures solenoidOutputs[..] == [false, false, false]
      ensures Consistent(CurrentMotion())
    {
      param := ValveParam(3, false, 5000);
      state := ValveInternal(Closed, Closed, 0, false);
      io := ValveIo(false, false, false, false, false);
      solenoidsEnergized := new bool[3] [false, false, false];
      solenoidCmds := new bool[3] [false, false, false];
      solenoidOutputs := new bool[3] [false, false, false];
    }

    /**
     * One scheduler cycle: the new motion fields are `Next` of the old ones. The
     * parameters, the target state, the ESD latch and the limit switches are left as
     * they were, and the three solenoid arrays, outside the frame, keep their contents.
     */
    method Update(cycleTimeMs: uint32)
      requires Valid()
      modifies this
      ensures Valid()
      ensures CurrentMotion()
           == Next(old(CurrentMotion()), AllEnergized(old(solenoidCmds[..]), old(param.solenoidCount)),
                   old(param.travelTimeMs), cycleTimeMs)
      ensures param == old(param)
      ensures state.targetState == old(state.targetState)
      ensures state.esdLatched == old(state.esdLatched)
      ensures io.lsOpen == old(io.lsOpen) && io.lsClose == old(io.lsClose)
      ensures solenoidCmds == old(solenoidCmds) && unchanged(solenoidCmds)
      ensures solenoidsEnergized == old(solenoidsEnergized) && unchanged(solenoidsEnergized)
      ensures solenoidOutputs == old(solenoidOutputs) && unchanged(solenoidOutputs)
    {
      var allEnergized := AllSolenoidsEnergized(solenoidCmds, param.solenoidCount);
      if state.currentState == Closed {
        if allEnergized {
          state := state.(currentState := Opening, stateTimer := 0);
          io := io.(valveMoving := true);
        }
      } else if state.currentState == Opening {
        state := state.(stateTimer := AddU32(state.stateTimer, cycleTimeMs));
        if state.stateTimer >= param.travelTimeMs {
          state := state.(currentState := Open);
          io := io.(valveMoving := false);
        }
      } else if state.currentState == Open {
        if !allEnergized {
          state := state.(currentState := Closing, stateTimer := 0);
          io := io.(valveMoving := true);
        }
      } else if state.currentState == Closing {
        state := state.(stateTimer := AddU32(state.stateTimer, cycleTimeMs));
        if state.stateTimer >= param.travelTimeMs {
          state := state.(currentState := Closed);
          io := io.(valveMoving := false);
        }
      } else {
        if io.resetCmd {
          state := state.(currentState := Closed);
          io := io.(fault := false, resetCmd := false);
        }
      }
    }
  }
}
