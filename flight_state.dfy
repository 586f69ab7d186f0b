/**
 * The desired flight state of the drone and the once-per-tick decision of
 * which command to send: four velocity axes, the operator's `Flying`
 * request and the internal `isFlying` edge marker, all updated in place.
 */
module FlightState {
  import opened Wrappers
  import opened DroneMovement

  /** Clamps a velocity into [-1, 1]. */
  function Normalize(d: real): (r: real)
    ensures -1.0 <= r <= 1.0
    ensures -1.0 <= d <= 1.0 ==> r == d
  {
    if d < -1.0 then -1.0
    else if d > 1.0 then 1.0
    else d
  }

  /** Clamps a magnitude from below at 0; there is no upper cap. */
  function NormalizePositive(d: real): (r: real)
    ensures r >= 0.0
    ensures d >= 0.0 ==> r == d
  {
    if d < 0.0 then 0.0
    else if d > 1.0 then d
    else d
  }

  function Distance(a: real, b: real): real {
    if a < b then b - a else a - b
  }

  /** `Normalize` picks the point of [-1, 1] nearest to its input. */
  lemma NormalizeIsNearest(d: real, w: real)
    requires -1.0 <= w <= 1.0
    ensures Distance(Normalize(d), d) <= Distance(w, d)
  {
  }

  /** `NormalizePositive` picks the non-negative number nearest to its input. */
  lemma NormalizePositiveIsNearest(d: real, w: real)
    requires w >= 0.0
    ensures Distance(NormalizePositive(d), d) <= Distance(w, d)
  {
  }

  lemma NormalizeMonotone(a: real, b: real)
    requires a <= b
    ensures Normalize(a) <= Normalize(b) && NormalizePositive(a) <= NormalizePositive(b)
  {
  }

  lemma NormalizeIdempotent(d: real)
    ensures Normalize(Normalize(d)) == Normalize(d)
    ensures NormalizePositive(NormalizePositive(d)) == NormalizePositive(d)
  {
  }

  /** The four commands a tick can choose between. */
  datatype Action = SendTakeoff | SendLand | SendMove | SendHover

  /**
   * The priority order of `GetNextCommand`: a takeoff or land edge first,
   * then movement while flying, then hover.
   */
  function Decide(flying: bool, isFlying: bool, moving: bool): (a: Action)
    ensures a == SendTakeoff <==> flying && !isFlying
    ensures a == SendLand <==> !flying && isFlying
    ensures a == SendMove <==> flying && isFlying && moving
    ensures a == SendHover <==> flying == isFlying && !(isFlying && moving)
  {
    if flying && !isFlying then SendTakeoff
    else if !flying && isFlying then SendLand
    else if isFlying && moving then SendMove
    else SendHover
  }

  /** Once the edge marker matches the request, no edge command is chosen again. */
  lemma EdgeFiresOnce(flying: bool, moving: bool)
    ensures Decide(flying, flying, moving) != SendTakeoff
    ensures Decide(flying, flying, moving) != SendLand
  {
  }

  /** What a tick reads of the flight state: the request, the edge marker and the four axes. */
  datatype Controls = Controls(flying: bool, isFlying: bool, strafeX: real, strafeY: real, ascendY: real, rollX: real)

  /** The frame a tick builds from `controls`, numbered `sequenceNumber`. */
  function FrameOf(controls: Controls, fc: FloatConversion, sequenceNumber: UInt32): (c: Command)
    ensures c.sequence == sequenceNumber
  {
    var moving := controls.strafeX != 0.0 || controls.strafeY != 0.0 || controls.ascendY != 0.0 || controls.rollX != 0.0;
    match Decide(controls.flying, controls.isFlying, moving)
    case SendTakeoff => Ref(sequenceNumber, TakeoffCode)
    case SendLand => Ref(sequenceNumber, LandCode)
    case SendMove => Pcmd(sequenceNumber, 1, fc(controls.strafeX), fc(controls.strafeY),
                          fc(controls.ascendY), fc(controls.rollX))
    case SendHover => Pcmd(sequenceNumber, 0, 0, 0, 0, 0)
  }

  class DroneState {
    // desired velocities, each normally in [-1, 1]
    var strafeX: real
    var strafeY: real
    var ascendY: real
    var rollX: real
    // the operator's takeoff/land request
    var flying: bool
    // the flying mode the control loop last acted upon
    var isFlying: bool

    /** `Environment.NewLine` of the platform. */
    const newline: string
    /** `FloatConversion` of the platform. */
    const floatConversion: FloatConversion

    /** The state of a freshly loaded program: every field at its default. */
    constructor (newline: string, floatConversion: FloatConversion)
      ensures strafeX == 0.0 && strafeY == 0.0 && ascendY == 0.0 && rollX == 0.0
      ensures !flying && !isFlying
      ensures this.newline == newline && this.floatConversion == floatConversion
    {
      strafeX, strafeY, ascendY, rollX := 0.0, 0.0, 0.0, 0.0;
      flying, isFlying := false, false;
      this.newline, this.floatConversion := newline, floatConversion;
    }

    predicate Moving()
      reads this
    {
      strafeX != 0.0 || strafeY != 0.0 || ascendY != 0.0 || rollX != 0.0
    }

    function Snapshot(): Controls
      reads this
    {
      Controls(flying, isFlying, strafeX, strafeY, ascendY, rollX)
    }

    /** The frame `GetNextCommand` builds for the drone in the current state. */
    function NextFrame(sequenceNumber: UInt32): (c: Command)
      reads this
      ensures c.sequence == sequenceNumber
    {
      FrameOf(Snapshot(), floatConversion, sequenceNumber)
    }

    /** The text `GetNextCommand` returns in the current state. */
    function NextCommand(sequenceNumber: UInt32): string
      reads this
    {
      Render(NextFrame(sequenceNumber), newline)
    }

    /** Every command carries the sequence number it was built for. */
    lemma NextCommandNumbered(sequenceNumber: UInt32)
      ensures SequenceField(NextCommand(sequenceNumber)) == Some(sequenceNumber)
    {
      SequenceFieldRender(NextFrame(sequenceNumber), newline);
    }

    /** What each branch of the priority order puts on the wire. */
    lemma NextCommandDecodes(sequenceNumber: UInt32)
      ensures Decide(flying, isFlying, Moving()) == SendTakeoff ==>
                Parse(NextCommand(sequenceNumber), newline) == Some(Ref(sequenceNumber, TakeoffCode))
      ensures Decide(flying, isFlying, Moving()) == SendLand ==>
                Parse(NextCommand(sequenceNumber), newline) == Some(Ref(sequenceNumber, LandCode))
      ensures Decide(flying, isFlying, Moving()) == SendMove ==>
                Parse(NextCommand(sequenceNumber), newline)
                  == Some(Pcmd(sequenceNumber, 1, floatConversion(strafeX), floatConversion(strafeY),
                               floatConversion(ascendY), floatConversion(rollX)))
      ensures Decide(flying, isFlying, Moving()) == SendHover ==>
                Parse(NextCommand(sequenceNumber), newline) == Some(Pcmd(sequenceNumber, 0, 0, 0, 0, 0))
    {
      ParseRender(NextFrame(sequenceNumber), newline);
    }

    // The property setters clamp into [-1, 1].

    method SetStrafeX(value: real)
      modifies this`strafeX
      ensures strafeX == Normalize(value)
    {
      strafeX := Normalize(value);
    }

    method SetStrafeY(value: real)
      modifies this`strafeY
      ensures strafeY == Normalize(value)
    {
      strafeY := Normalize(value);
    }

    method SetAscendY(value: real)
      modifies this`ascendY
      ensures ascendY == Normalize(value)
    {
      ascendY := Normalize(value);
    }

    method SetRollX(value: real)
      modifies this`rollX
      ensures rollX == Normalize(value)
    {
      rollX := Normalize(value);
    }

    method TakeOff()
      modifies this`flying
      ensures flying
    {
      flying := true;
    }

    method Land()
      modifies this`flying
      ensures !flying
    {
      flying := false;
    }

    // The directional helpers clamp their magnitude only from below and
    // give it the sign of their direction.

    method GoUp(value: real := 0.3)
      modifies this`ascendY
      ensures ascendY == NormalizePositive(value)
    {
      ascendY := NormalizePositive(value);
    }

    method GoDown(value: real := 0.3)
      modifies this`ascendY
      ensures ascendY == -NormalizePositive(value)
    {
      ascendY := NormalizePositive(value) * -1.0;
    }

    method StopAscend()
      modifies this`ascendY
      ensures ascendY == 0.0
    {
      ascendY := 0.0;
    }

    method GoForward(value: real := 0.3)
      modifies this`strafeY
      ensures strafeY == -NormalizePositive(value)
    {
      strafeY := NormalizePositive(value) * -1.0;
    }

    method GoBackward(value: real := 0.3)
      modifies this`strafeY
      ensures strafeY == NormalizePositive(value)
    {
      strafeY := NormalizePositive(value);
    }

    method StopForwardBackward()
      modifies this`strafeY
      ensures strafeY == 0.0
    {
      strafeY := 0.0;
    }

    method GoLeft(value: real := 0.3)
      modifies this`strafeX
      ensures strafeX == -NormalizePositive(value)
    {
      strafeX := NormalizePositive(value) * -1.0;
    }

    method GoRight(value: real := 0.3)
      modifies this`strafeX
      ensures strafeX == NormalizePositive(value)
    {
      strafeX := NormalizePositive(value);
    }

    method StopLeftRight()
      modifies this`strafeX
      ensures strafeX == 0.0
    {
      strafeX := 0.0;
    }

    method RotateRight(value: real := 0.5)
      modifies this`rollX
      ensures rollX == NormalizePositive(value)
    {
      rollX := NormalizePositive(value);
    }

    method RotateLeft(value: real := 0.5)
      modifies this`rollX
      ensures rollX == -NormalizePositive(value)
    {
      rollX := NormalizePositive(value) * -1.0;
    }

    method StopRotate()
      modifies this`rollX
      ensures rollX == 0.0
    {
      rollX := 0.0;
    }

    /** Zeroes all four axes; the flying request and the edge marker stay. */
    method Stop()
      modifies this`strafeX, this`strafeY, this`ascendY, this`rollX
      ensures strafeX == 0.0 && strafeY == 0.0 && ascendY == 0.0 && rollX == 0.0
      ensures !Moving()
    {
      strafeX := 0.0;
      strafeY := 0.0;
      ascendY := 0.0;
      rollX := 0.0;
    }

    /**
     * Chooses this tick's command and brings the edge marker up to date:
     * afterwards `isFlying == flying`, so a takeoff or land fires once per edge.
     */
    method GetNextCommand(sequenceNumber: UInt32) returns (cmd: string, ghost frame: Command)
      modifies this`isFlying
      ensures frame == old(NextFrame(sequenceNumber)) && cmd == Render(frame, newline)
      ensures isFlying == flying
      ensures old(flying && !isFlying) ==> cmd == GetDroneTakeoff(sequenceNumber, newline)
      ensures old(!flying && isFlying) ==> cmd == GetDroneLand(sequenceNumber, newline)
      ensures old(flying == isFlying) && isFlying && Moving() ==>
                cmd == GetDroneMove(sequenceNumber, strafeX, strafeY, ascendY, rollX, floatConversion, newline)
      ensures old(flying == isFlying) && !(isFlying && Moving()) ==> cmd == GetHoveringCommand(sequenceNumber, newline)
    {
      if flying && !isFlying {
        isFlying := true;
        cmd := GetDroneTakeoff(sequenceNumber, newline);
        TakeoffRenders(sequenceNumber, newline);
        frame := Ref(sequenceNumber, TakeoffCode);
      } else if !flying && isFlying {
        isFlying := false;
        cmd := GetDroneLand(sequenceNumber, newline);
        LandRenders(sequenceNumber, newline);
        frame := Ref(sequenceNumber, LandCode);
      } else if isFlying && (strafeX != 0.0 || strafeY != 0.0 || ascendY != 0.0 || rollX != 0.0) {
        cmd := GetDroneMove(sequenceNumber, strafeX, strafeY, ascendY, rollX, floatConversion, newline);
        MoveRenders(sequenceNumber, strafeX, strafeY, ascendY, rollX, floatConversion, newline);
        frame := Pcmd(sequenceNumber, 1, floatConversion(strafeX), floatConversion(strafeY),
                      floatConversion(ascendY), floatConversion(rollX));
      } else {
        cmd := GetHoveringCommand(sequenceNumber, newline);
        HoverRenders(sequenceNumber, newline);
        frame := Pcmd(sequenceNumber, 0, 0, 0, 0, 0);
      }
    }
  }

  /**
   * Takeoff fires once: after `TakeOff()` the first tick sends the takeoff
   * command, the next (with all axes zero) hovers; a strafe of 1.0 then
   * moves with the bit pattern of 1.0 in the x field.
   */
  method TakeOffScenario(newline: string, fc: FloatConversion) returns (first: string, second: string, third: string)
    requires InCodeVectors(fc)
    ensures Parse(first, newline) == Some(Ref(5, TakeoffCode))
    ensures Parse(second, newline) == Some(Pcmd(6, 0, 0, 0, 0, 0))
    ensures Parse(third, newline) == Some(Pcmd(10, 1, 1065353216, 0, 0, 0))
  {
    var state := new DroneState(newline, fc);
    state.TakeOff();
    ghost var frame;
    first, frame := state.GetNextCommand(5);
    assert frame == Ref(5, TakeoffCode);
    ParseRender(frame, newline);
    second, frame := state.GetNextCommand(6);
    assert frame == Pcmd(6, 0, 0, 0, 0, 0);
    ParseRender(frame, newline);
    state.SetStrafeX(1.0);
    assert state.Snapshot() == Controls(true, true, 1.0, 0.0, 0.0, 0.0);
    third, frame := state.GetNextCommand(10);
    assert frame == Pcmd(10, 1, 1065353216, 0, 0, 0);
    ParseRender(frame, newline);
  }

  /** A directional helper may store a magnitude above 1: [-1, 1] is not an invariant of the axes. */
  method GoUpBeyondUnitRange(newline: string, fc: FloatConversion) returns (ascend: real)
    ensures ascend == 2.0
  {
    var state := new DroneState(newline, fc);
    state.GoUp(2.0);
    ascend := state.ascendY;
  }
}
