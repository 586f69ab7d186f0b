/**
 * The control loop: the sequence number and stop flag of `DroneControl`,
 * one loop iteration as `Tick`, a bounded run of iterations as `DroneLoop`,
 * and the stub-mode guard on transport writes.
 *
 * The transport is abstract. Two ghost logs stand for it: `sent` records,
 * in order, the frame of every command the loop passed to
 * `SendCommandAsync` (what the trace log shows), and `wire` every datagram
 * handed to the socket. A `Text(c)` datagram carries the ASCII bytes of
 * `Render(c, newline)`. `socketOpen` stands for `udpSocket != null`.
 */
module ControlLoop {
  import opened Wrappers
  import opened DroneMovement
  import opened FlightState

  const Modulus: nat := 0x1_0000_0000

  /** `sequenceNumber++` on a C# `uint`, which wraps around. */
  function Increment(n: UInt32): UInt32 {
    if n == 0xFFFF_FFFF then 0 else n + 1
  }

  lemma IncrementWraps(n: UInt32)
    ensures Increment(n) == (n + 1) % Modulus
  {
  }

  /** The sequence number after `steps` increments from `n`. */
  function Advance(n: UInt32, steps: nat): UInt32 {
    if steps == 0 then n else Increment(Advance(n, steps - 1))
  }

  /** Counting wraps around modulo 2^32. */
  lemma {:induction false} AdvanceWraps(n: UInt32, steps: nat)
    ensures Advance(n, steps) == (n + steps) % Modulus
  {
    if steps > 0 {
      AdvanceWraps(n, steps - 1);
      IncrementWraps(Advance(n, steps - 1));
    }
  }

  /** Fewer than 2^32 increments never come back to the start. */
  lemma AdvanceDistinct(n: UInt32, i: nat, j: nat)
    requires i < j < Modulus
    ensures Advance(n, i) != Advance(n, j)
  {
    AdvanceWraps(n, i);
    AdvanceWraps(n, j);
  }

  /** A datagram written to the socket: the one-byte handshake, or the text of a command. */
  datatype Datagram = Handshake | Text(frame: Command)

  /** How one iteration of the loop ends. */
  datatype TickOutcome =
    | Sent      // a command was produced and the sequence number advanced
    | Exited    // the stop flag was observed: the loop ends normally
    | Faulted   // the transport write threw: the loop task ends with the exception

  /** How a bounded run of the loop ends. */
  datatype LoopEnd = StillRunning | ExitedOnStop | FaultedOnSend

  /** How `Close` ends. */
  datatype CloseOutcome = Closed | NullSocket

  /** The frames carry consecutive sequence numbers starting at `first`, modulo 2^32. */
  ghost predicate Numbered(frames: seq<Command>, first: UInt32)
    decreases |frames|
  {
    frames == [] ||
    (Numbered(frames[..|frames| - 1], first) && frames[|frames| - 1].sequence == Advance(first, |frames| - 1))
  }

  /** Each frame is the one a tick builds from `controls` for its number, counting from `first`. */
  ghost predicate Steady(frames: seq<Command>, first: UInt32, controls: Controls, fc: FloatConversion)
    decreases |frames|
  {
    frames == [] ||
    (Steady(frames[..|frames| - 1], first, controls, fc)
     && frames[|frames| - 1] == FrameOf(controls, fc, Advance(first, |frames| - 1)))
  }

  /** The datagrams that carry `frames`. */
  function Texts(frames: seq<Command>): (datagrams: seq<Datagram>)
    ensures |datagrams| == |frames|
  {
    if frames == [] then [] else Texts(frames[..|frames| - 1]) + [Text(frames[|frames| - 1])]
  }

  /** The k-th datagram carries the k-th frame. */
  lemma {:induction false} TextsAt(frames: seq<Command>, k: nat)
    requires k < |frames|
    ensures Texts(frames)[k] == Text(frames[k])
    decreases |frames|
  {
    if k < |frames| - 1 {
      var prefix := frames[..|frames| - 1];
      TextsAt(prefix, k);
      assert prefix[k] == frames[k];
    }
  }

  lemma {:induction false} TextsPrepend(lead: Command, run: seq<Command>)
    ensures Texts([lead] + run) == [Text(lead)] + Texts(run)
    decreases |run|
  {
    if run != [] {
      var prefix := run[..|run| - 1];
      TextsPrepend(lead, prefix);
      assert ([lead] + run)[..|run|] == [lead] + prefix;
    }
  }

  /** The numbering, read index by index, on the wire text. */
  lemma {:induction false} NumberedAt(frames: seq<Command>, first: UInt32, k: nat)
    requires Numbered(frames, first) && k < |frames|
    ensures frames[k].sequence == (first + k) % Modulus
    decreases |frames|
  {
    if k < |frames| - 1 {
      var prefix := frames[..|frames| - 1];
      NumberedAt(prefix, first, k);
      assert prefix[k] == frames[k];
    } else {
      AdvanceWraps(first, k);
    }
  }

  /** The wire text of the k-th frame reads back as sequence number first + k, modulo 2^32. */
  lemma {:induction false} NumberedTextAt(frames: seq<Command>, first: UInt32, k: nat, newline: string)
    requires Numbered(frames, first) && k < |frames|
    ensures SequenceField(Render(frames[k], newline)) == Some((first + k) % Modulus)
  {
    NumberedAt(frames, first, k);
    SequenceFieldRender(frames[k], newline);
  }

  /** The frames of a run are pairwise distinct while it is no longer than 2^32. */
  lemma {:induction false} NumberedDistinct(frames: seq<Command>, first: UInt32, i: nat, j: nat)
    requires Numbered(frames, first) && i < j < |frames| && |frames| <= Modulus
    ensures frames[i] != frames[j]
  {
    NumberedAt(frames, first, i);
    NumberedAt(frames, first, j);
  }

  /** Advancing from the successor is advancing one step more. */
  lemma {:induction false} AdvanceShift(n: UInt32, steps: nat)
    ensures Advance(Increment(n), steps) == Advance(n, steps + 1)
  {
    if steps > 0 {
      AdvanceShift(n, steps - 1);
    }
  }

  /** A steady run, read index by index. */
  lemma {:induction false} SteadyAt(frames: seq<Command>, first: UInt32, controls: Controls, fc: FloatConversion, k: nat)
    requires Steady(frames, first, controls, fc) && k < |frames|
    ensures frames[k] == FrameOf(controls, fc, ((first + k) % Modulus) as UInt32)
    decreases |frames|
  {
    AdvanceWraps(first, k);
    if k < |frames| - 1 {
      var prefix := frames[..|frames| - 1];
      SteadyAt(prefix, first, controls, fc, k);
      assert prefix[k] == frames[k];
    }
  }

  /** One more steady frame keeps a run steady; its datagram goes last. */
  lemma SteadyExtend(frames: seq<Command>, first: UInt32, controls: Controls, fc: FloatConversion, next: Command)
    requires Steady(frames, first, controls, fc)
    requires next == FrameOf(controls, fc, Advance(first, |frames|))
    ensures Steady(frames + [next], first, controls, fc)
    ensures Texts(frames + [next]) == Texts(frames) + [Text(next)]
  {
    assert (frames + [next])[..|frames|] == frames;
  }

  /** A frame numbered `first` followed by a steady run from the next number is numbered without gaps. */
  lemma {:induction false} LeadThenSteadyNumbered(lead: Command, run: seq<Command>, first: UInt32, controls: Controls, fc: FloatConversion)
    requires lead.sequence == first && Steady(run, Increment(first), controls, fc)
    ensures Numbered([lead] + run, first)
    decreases |run|
  {
    var frames := [lead] + run;
    if run == [] {
      assert frames[..0] == [];
    } else {
      var prefix := run[..|run| - 1];
      LeadThenSteadyNumbered(lead, prefix, first, controls, fc);
      assert frames[..|frames| - 1] == [lead] + prefix;
      AdvanceShift(first, |run| - 1);
    }
  }

  class DroneControl {
    /** The flight state the loop reads, shared with the input callers. */
    const state: DroneState
    var sequenceNumber: UInt32
    var stop: bool
    var stubMode: bool
    var socketOpen: bool
    ghost var sent: seq<Command>
    ghost var wire: seq<Datagram>
    /** Whether the loop task started by `Connect` is still alive. */
    ghost var running: bool

    /** The static initial state: sequence number 1, no stop request, no socket. */
    constructor (state: DroneState, stubMode: bool)
      ensures this.state == state && this.stubMode == stubMode
      ensures sequenceNumber == 1 && !stop && !socketOpen && !running
      ensures sent == [] && wire == []
    {
      this.state := state;
      this.stubMode := stubMode;
      sequenceNumber, stop, socketOpen := 1, false, false;
      sent, wire := [], [];
      running := false;
    }

    method SetStubMode(value: bool)
      modifies this`stubMode
      ensures stubMode == value
    {
      stubMode := value;
    }

    /**
     * Opens the socket and writes the one-byte handshake unless in stub
     * mode, then starts the loop task (run by `DroneLoop`).
     */
    method Connect()
      modifies this`socketOpen, this`wire, this`running
      ensures running
      ensures !stubMode ==> socketOpen && wire == old(wire) + [Handshake]
      ensures stubMode ==> socketOpen == old(socketOpen) && wire == old(wire)
    {
      if !stubMode {
        socketOpen := true;
        wire := wire + [Handshake];
      }
      running := true;
    }

    /**
     * `SendCommandAsync`: the command is traced, then written to the socket
     * unless in stub mode. On a missing socket the write throws (`ok` false).
     */
    method SendCommand(command: string, ghost frame: Command) returns (ok: bool)
      requires command == Render(frame, state.newline)
      modifies this`sent, this`wire
      ensures sent == old(sent) + [frame]
      ensures ok == (stubMode || socketOpen)
      ensures wire == if !stubMode && socketOpen then old(wire) + [Text(frame)] else old(wire)
    {
      sent := sent + [frame];
      ok := true;
      if !stubMode {
        if socketOpen {
          wire := wire + [Text(frame)];
        } else {
          ok := false;
        }
      }
    }

    /** One iteration of `DroneLoop`, up to the delay at its end. */
    method Tick() returns (outcome: TickOutcome)
      requires running
      modifies this`sequenceNumber, this`stop, this`sent, this`wire, this`running, state`isFlying
      ensures stubMode == old(stubMode) && socketOpen == old(socketOpen)
      ensures running == (outcome == Sent)
      ensures old(stop) ==>
                && outcome == Exited && !stop && sequenceNumber == 1
                && sent == old(sent) && wire == old(wire) && state.isFlying == old(state.isFlying)
      ensures !old(stop) ==>
                && !stop && state.isFlying == state.flying
                && sent == old(sent) + [old(state.NextFrame(sequenceNumber))]
                && (stubMode || socketOpen ==> outcome == Sent && sequenceNumber == Increment(old(sequenceNumber)))
                && (!stubMode && !socketOpen ==> outcome == Faulted && sequenceNumber == old(sequenceNumber))
                && wire == if !stubMode && socketOpen then old(wire) + [Text(sent[|sent| - 1])] else old(wire)
    {
      if stop {
        stop := false;
        sequenceNumber := 1;
        running := false;
        return Exited;
      }
      var command, frame := state.GetNextCommand(sequenceNumber);
      var ok := SendCommand(command, frame);
      if !ok {
        running := false;
        return Faulted;
      }
      sequenceNumber := Increment(sequenceNumber);
      outcome := Sent;
    }

    /**
     * Iterations of `DroneLoop` once the edge marker matches the request and
     * the transport accepts writes: no stop request arrives in between, so
     * every tick sends the frame built from the same controls.
     */
    method SteadyTicks(ticks: nat, ghost controls: Controls) returns (ghost run: seq<Command>)
      requires running && !stop && (stubMode || socketOpen)
      requires state.Snapshot() == controls && controls.isFlying == controls.flying
      modifies this`sequenceNumber, this`stop, this`sent, this`wire, this`running, state`isFlying
      ensures running && !stop && stubMode == old(stubMode) && socketOpen == old(socketOpen)
      ensures state.Snapshot() == controls
      ensures sequenceNumber == Advance(old(sequenceNumber), ticks)
      ensures sent == old(sent) + run && |run| == ticks
      ensures Steady(run, old(sequenceNumber), controls, state.floatConversion)
      ensures stubMode ==> wire == old(wire)
      ensures !stubMode ==> wire == old(wire) + Texts(run)
    {
      ghost var first := sequenceNumber;
      run := [];
      var count := 0;
      while count < ticks
        invariant count <= ticks && running && !stop && state.Snapshot() == controls
        invariant stubMode == old(stubMode) && socketOpen == old(socketOpen)
        invariant sequenceNumber == Advance(first, count)
        invariant sent == old(sent) + run && |run| == count
        invariant Steady(run, first, controls, state.floatConversion)
        invariant stubMode ==> wire == old(wire)
        invariant !stubMode ==> wire == old(wire) + Texts(run)
      {
        ghost var next := state.NextFrame(sequenceNumber);
        var outcome := Tick();
        SteadyExtend(run, first, controls, state.floatConversion, next);
        run := run + [next];
        count := count + 1;
      }
    }

    /**
     * Runs the loop task for at most `ticks` iterations, with no other
     * caller in between; `frames` are the frames it sends. Only the first
     * iteration can see the stop flag, meet a missing socket or send an
     * edge command; the frames carry consecutive sequence numbers modulo 2^32.
     */
    method DroneLoop(ticks: nat) returns (end: LoopEnd, count: nat, ghost frames: seq<Command>)
      requires running
      modifies this`sequenceNumber, this`stop, this`sent, this`wire, this`running, state`isFlying
      ensures stubMode == old(stubMode) && socketOpen == old(socketOpen)
      ensures count <= ticks && running == (end == StillRunning) && sent == old(sent) + frames
      ensures ticks == 0 ==>
                && end == StillRunning && count == 0 && stop == old(stop) && frames == [] && wire == old(wire)
                && sequenceNumber == old(sequenceNumber) && state.isFlying == old(state.isFlying)
      ensures ticks > 0 && old(stop) ==>
                && end == ExitedOnStop && count == 0 && !stop && sequenceNumber == 1
                && frames == [] && wire == old(wire) && state.isFlying == old(state.isFlying)
      ensures ticks > 0 && !old(stop) && !stubMode && !socketOpen ==>
                && end == FaultedOnSend && count == 0 && !stop && sequenceNumber == old(sequenceNumber)
                && frames == [old(state.NextFrame(sequenceNumber))] && wire == old(wire)
                && state.isFlying == state.flying
      ensures !old(stop) && (stubMode || socketOpen) ==>
                && end == StillRunning && count == ticks && !stop
                && sequenceNumber == Advance(old(sequenceNumber), ticks)
                && |frames| == ticks && Numbered(frames, old(sequenceNumber))
                && (stubMode ==> wire == old(wire))
                && (!stubMode ==> wire == old(wire) + Texts(frames))
      ensures !old(stop) && (stubMode || socketOpen) && ticks > 0 ==>
                && frames[0] == old(state.NextFrame(sequenceNumber))
                && state.isFlying == state.flying
                && Steady(frames[1..], Increment(old(sequenceNumber)), state.Snapshot(), state.floatConversion)
    {
      end, count, frames := StillRunning, 0, [];
      if ticks == 0 {
        return;
      }
      ghost var first := sequenceNumber;
      ghost var lead := state.NextFrame(sequenceNumber);
      var outcome := Tick();
      if outcome == Exited {
        return ExitedOnStop, 0, [];
      } else if outcome == Faulted {
        return FaultedOnSend, 0, [lead];
      }
      // from here on the edge marker matches the request
      var run := SteadyTicks(ticks - 1, state.Snapshot());
      count, frames := ticks, [lead] + run;
      assert frames[1..] == run;
      LeadThenSteadyNumbered(lead, run, first, state.Snapshot(), state.floatConversion);
      AdvanceShift(first, ticks - 1);
      TextsPrepend(lead, run);
    }

    /** Requests the loop to exit at the start of its next iteration. */
    method Stop()
      modifies this`stop
      ensures stop
    {
      stop := true;
    }

    /**
     * Closes the socket unless in stub mode, then calls `Stop`. Closing a
     * missing socket throws before `Stop` is reached.
     */
    method Close() returns (outcome: CloseOutcome)
      modifies this`socketOpen, this`stop
      ensures !stubMode && !old(socketOpen) ==> outcome == NullSocket && stop == old(stop) && !socketOpen
      ensures stubMode || old(socketOpen) ==>
                outcome == Closed && stop && socketOpen == (stubMode && old(socketOpen))
    {
      if !stubMode {
        if !socketOpen {
          return NullSocket;
        }
        socketOpen := false;
      }
      Stop();
      outcome := Closed;
    }
  }

  /**
   * From the program's initial state in stub mode, n ticks send frames
   * numbered 1, 2, ..., n (modulo 2^32) and nothing reaches the socket.
   */
  method FreshStubRun(state: DroneState, ticks: nat) returns (control: DroneControl)
    modifies state
    ensures control.state == state && control.wire == [] && |control.sent| == ticks
    ensures forall k :: 0 <= k < ticks ==> control.sent[k].sequence == (1 + k) % Modulus
    ensures ticks > 0 ==> control.sequenceNumber == (1 + ticks) % Modulus
  {
    control := new DroneControl(state, true);
    control.Connect();
    var end, count, frames := control.DroneLoop(ticks);
    forall k | 0 <= k < ticks
      ensures control.sent[k].sequence == (1 + k) % Modulus
    {
      NumberedAt(frames, 1, k);
    }
    AdvanceWraps(1, ticks);
  }

  /**
   * A stop request made before the loop starts is kept: the first tick of
   * the next loop exits at once, sends nothing and resets the number to 1.
   */
  method StopBeforeStart(state: DroneState) returns (end: LoopEnd, number: UInt32)
    modifies state
    ensures end == ExitedOnStop && number == 1
  {
    var control := new DroneControl(state, true);
    control.Stop();
    control.Connect();
    var count;
    ghost var frames;
    end, count, frames := control.DroneLoop(3);
    number := control.sequenceNumber;
  }

  /** Outside stub mode, closing before connecting fails and leaves the stop flag clear. */
  method CloseBeforeConnect(state: DroneState) returns (outcome: CloseOutcome, stopped: bool)
    ensures outcome == NullSocket && !stopped
  {
    var control := new DroneControl(state, false);
    outcome := control.Close();
    stopped := control.stop;
  }
}
