/**
 * The AR.Drone AT command encoder: pure string builders for
 * `AT*REF=<seq>,<code>` and `AT*PCMD=<seq>,<mode>,<x>,<y>,<ascend>,<roll>`,
 * each followed by the platform's newline.
 *
 * The platform's newline (`Environment.NewLine`) and the float-to-int32 bit
 * reinterpretation (`FloatConversion`) are parameters: `newline` is any
 * string, and `fc` any function from a velocity to a 32-bit signed integer.
 * `InCodeVectors` pins `fc` down at the values the source's comments record.
 */
module DroneMovement {
  import opened Wrappers
  import opened Decimal
  import opened CommaFields

  /** C# `uint`, the type of the sequence number. */
  type UInt32 = n: nat | n < 0x1_0000_0000

  /** C# `int`, the result type of `FloatConversion`. */
  type Int32 = i: int | -0x8000_0000 <= i < 0x8000_0000

  /** The bit reinterpretation of a velocity, supplied by the platform. */
  type FloatConversion = real -> Int32

  const TakeoffCode: nat := 290718208
  const LandCode: nat := 290717696

  /**
   * What the comments of the source record of `FloatConversion`: the bit
   * patterns of single-precision 1.0, -1.0, 0.5 and -0.5. Besides these,
   * 0.0 maps to 0, the bit pattern of +0.0 (a `real` has no -0.0, whose
   * pattern would be -2147483648).
   */
  predicate InCodeVectors(fc: FloatConversion) {
    && fc(1.0) == 1065353216
    && fc(-1.0) == -1082130432
    && fc(0.5) == 1056964608
    && fc(-0.5) == -1090519040
    && fc(0.0) == 0
  }

  // ---------------------------------------------------------------------
  // The command grammar as a value, its rendering and its parser
  // ---------------------------------------------------------------------

  /** One AT command, as the device reads it. */
  datatype Command =
    | Ref(sequence: nat, code: nat)
    | Pcmd(sequence: nat, mode: int, x: int, y: int, ascend: int, roll: int)

  function Header(c: Command): string {
    match c
    case Ref(_, _) => "AT*REF="
    case Pcmd(_, _, _, _, _, _) => "AT*PCMD="
  }

  function Arguments(c: Command): (fields: seq<string>)
    ensures |fields| >= 2 && fields[0] == NatToDecimal(c.sequence)
  {
    match c
    case Ref(n, code) => [NatToDecimal(n), NatToDecimal(code)]
    case Pcmd(n, mode, x, y, a, r) =>
      [NatToDecimal(n), IntToDecimal(mode), IntToDecimal(x), IntToDecimal(y), IntToDecimal(a), IntToDecimal(r)]
  }

  lemma NatToDecimalNoComma(n: nat)
    ensures NoComma(NatToDecimal(n))
  {
    NatToDecimalCanonical(n);
  }

  lemma IntToDecimalNoComma(i: int)
    ensures NoComma(IntToDecimal(i))
  {
    IntToDecimalShape(i);
  }

  lemma ArgumentsHaveNoComma(c: Command)
    ensures forall k :: 0 <= k < |Arguments(c)| ==> NoComma(Arguments(c)[k])
  {
    NatToDecimalNoComma(c.sequence);
    match c
    case Ref(_, code) =>
      NatToDecimalNoComma(code);
    case Pcmd(_, mode, x, y, a, r) =>
      IntToDecimalNoComma(mode);
      IntToDecimalNoComma(x);
      IntToDecimalNoComma(y);
      IntToDecimalNoComma(a);
      IntToDecimalNoComma(r);
  }

  /** The text of a command on the wire. */
  function Render(c: Command, newline: string): (s: string)
    ensures |s| >= 3 + |newline| && s[..3] == "AT*" && s[|s| - |newline|..] == newline
  {
    Header(c) + Join(Arguments(c)) + newline
  }

  function ParseRef(args: string): Option<Command> {
    var fs := Split(args);
    if |fs| == 2 && ParseNat(fs[0]).Some? && ParseNat(fs[1]).Some? then
      Some(Ref(ParseNat(fs[0]).value, ParseNat(fs[1]).value))
    else
      None
  }

  function ParsePcmd(args: string): Option<Command> {
    var fs := Split(args);
    if && |fs| == 6 && ParseNat(fs[0]).Some? && ParseInt(fs[1]).Some?
       && ParseInt(fs[2]).Some? && ParseInt(fs[3]).Some? && ParseInt(fs[4]).Some? && ParseInt(fs[5]).Some?
    then
      Some(Pcmd(ParseNat(fs[0]).value, ParseInt(fs[1]).value, ParseInt(fs[2]).value,
                ParseInt(fs[3]).value, ParseInt(fs[4]).value, ParseInt(fs[5]).value))
    else
      None
  }

  /** Reads one command terminated by `newline`. */
  function Parse(s: string, newline: string): Option<Command> {
    if |s| < |newline| || s[|s| - |newline|..] != newline then None
    else
      var body := s[..|s| - |newline|];
      if |body| >= 7 && body[..7] == "AT*REF=" then ParseRef(body[7..])
      else if |body| >= 8 && body[..8] == "AT*PCMD=" then ParsePcmd(body[8..])
      else None
  }

  /** The decimal sequence number that follows the '=' of a command. */
  function SequenceField(s: string): Option<nat> {
    if |s| >= 7 && s[..7] == "AT*REF=" then ParseNat(Split(s[7..])[0])
    else if |s| >= 8 && s[..8] == "AT*PCMD=" then ParseNat(Split(s[8..])[0])
    else None
  }

  lemma ParseArguments(c: Command)
    ensures c.Ref? ==> ParseRef(Join(Arguments(c))) == Some(c)
    ensures c.Pcmd? ==> ParsePcmd(Join(Arguments(c))) == Some(c)
  {
    ArgumentsHaveNoComma(c);
    SplitJoin(Arguments(c));
    match c
    case Ref(n, code) =>
      ParseNatOfNatToDecimal(n);
      ParseNatOfNatToDecimal(code);
    case Pcmd(n, mode, x, y, a, r) =>
      ParseNatOfNatToDecimal(n);
      ParseIntOfIntToDecimal(mode);
      ParseIntOfIntToDecimal(x);
      ParseIntOfIntToDecimal(y);
      ParseIntOfIntToDecimal(a);
      ParseIntOfIntToDecimal(r);
  }

  /** `Parse` strips the newline and dispatches on the header. */
  lemma ParseAfterHeader(header: string, args: string, newline: string)
    requires header == "AT*REF=" || header == "AT*PCMD="
    ensures Parse(header + args + newline, newline)
         == if header == "AT*REF=" then ParseRef(args) else ParsePcmd(args)
  {
    var s := header + args + newline;
    var body := s[..|s| - |newline|];
    assert body == header + args;
    assert body[..|header|] == header && body[|header|..] == args;
    if header == "AT*PCMD=" {
      assert body[..7] != "AT*REF=" by { assert body[3] == 'P'; }
    }
  }

  /** Reading a rendered command gives back the command. */
  lemma ParseRender(c: Command, newline: string)
    ensures Parse(Render(c, newline), newline) == Some(c)
  {
    ParseAfterHeader(Header(c), Join(Arguments(c)), newline);
    ParseArguments(c);
  }

  /** Different commands never share a rendering. */
  lemma RenderInjective(c: Command, d: Command, newline: string)
    requires Render(c, newline) == Render(d, newline)
    ensures c == d
  {
    ParseRender(c, newline);
    ParseRender(d, newline);
  }

  /** The sequence number can be read back from any rendered command. */
  lemma SequenceFieldRender(c: Command, newline: string)
    ensures SequenceField(Render(c, newline)) == Some(c.sequence)
  {
    var args := Arguments(c);
    NatToDecimalNoComma(c.sequence);
    SplitFirstField(args, newline);
    SequenceFieldAfterHeader(Header(c), Join(args) + newline);
    assert Render(c, newline) == Header(c) + (Join(args) + newline);
    ParseNatOfNatToDecimal(c.sequence);
  }

  lemma SequenceFieldAfterHeader(header: string, rest: string)
    requires header == "AT*REF=" || header == "AT*PCMD="
    ensures SequenceField(header + rest) == ParseNat(Split(rest)[0])
  {
    var s := header + rest;
    assert s[..|header|] == header && s[|header|..] == rest;
    if header == "AT*PCMD=" {
      assert s[..7] != "AT*REF=" by { assert s[3] == 'P'; }
    }
  }

  // ---------------------------------------------------------------------
  // The builders of the source
  // ---------------------------------------------------------------------

  /** The three-field form the builders use equals the six-field argument list. */
  lemma PcmdArguments(n: string, mode: string, values: seq<string>)
    requires |values| == 4
    ensures Join([n, mode, Join(values)]) == Join([n, mode] + values)
  {
    JoinAppend([n, mode], [Join(values)]);
    JoinAppend([n, mode], values);
  }

  /** `AT*REF=<seq>,<command>` and the newline. */
  function CreateATREFCommand(sequenceNumber: UInt32, command: string, newline: string): string {
    "AT*REF=" + NatToDecimal(sequenceNumber) + "," + command + newline
  }

  /** `AT*PCMD=<seq>,<mode>,<command>` and the newline; `mode` is 1 unless given. */
  function CreateATPCMDCommand(sequenceNumber: UInt32, command: string, newline: string, mode: int := 1): string {
    "AT*PCMD=" + NatToDecimal(sequenceNumber) + "," + IntToDecimal(mode) + "," + command + newline
  }

  function GetDroneTakeoff(sequenceNumber: UInt32, newline: string): string {
    CreateATREFCommand(sequenceNumber, "290718208", newline)
  }

  function GetDroneLand(sequenceNumber: UInt32, newline: string): string {
    CreateATREFCommand(sequenceNumber, "290717696", newline)
  }

  /** The "do nothing" command: mode 0 and four literal zeros. */
  function GetHoveringCommand(sequenceNumber: UInt32, newline: string): string {
    CreateATPCMDCommand(sequenceNumber, "0,0,0,0", newline, 0)
  }

  function GetDroneMove(sequenceNumber: UInt32, velocityX: real, velocityY: real, velocityAscend: real,
                        velocityRoll: real, fc: FloatConversion, newline: string): string
  {
    var command := IntToDecimal(fc(velocityX)) + "," + IntToDecimal(fc(velocityY)) + ","
                   + IntToDecimal(fc(velocityAscend)) + "," + IntToDecimal(fc(velocityRoll));
    CreateATPCMDCommand(sequenceNumber, command, newline)
  }

  // Test helpers of the source: one or two axes, the others the literal 0.

  function GetDroneStrafe(sequenceNumber: UInt32, velocityX: real, velocityY: real,
                          fc: FloatConversion, newline: string): string
  {
    CreateATPCMDCommand(sequenceNumber, IntToDecimal(fc(velocityX)) + "," + IntToDecimal(fc(velocityY)) + ",0,0", newline)
  }

  function GetDroneStrafeLeftRight(sequenceNumber: UInt32, velocity: real,
                                   fc: FloatConversion, newline: string): string
  {
    CreateATPCMDCommand(sequenceNumber, IntToDecimal(fc(velocity)) + ",0,0,0", newline)
  }

  function GetDroneStrafeForwardBackward(sequenceNumber: UInt32, velocity: real,
                                         fc: FloatConversion, newline: string): string
  {
    CreateATPCMDCommand(sequenceNumber, "0," + IntToDecimal(fc(velocity)) + ",0,0", newline)
  }

  function GetDroneAscendDescend(sequenceNumber: UInt32, velocity: real,
                                 fc: FloatConversion, newline: string): string
  {
    CreateATPCMDCommand(sequenceNumber, "0,0," + IntToDecimal(fc(velocity)) + ",0", newline)
  }

  // ---------------------------------------------------------------------
  // Each builder renders the command it is named after
  // ---------------------------------------------------------------------

  lemma Regroup(lead: string, mode: string, command: string, newline: string)
    ensures lead + mode + "," + command + newline == lead + (mode + "," + command + newline)
  {
  }

  /** After either header, a number followed by a comma reads back, whatever comes next. */
  lemma SequenceFieldOfNumber(header: string, n: nat, rest: string)
    requires header == "AT*REF=" || header == "AT*PCMD="
    ensures SequenceField(header + NatToDecimal(n) + "," + rest) == Some(n)
  {
    var digits := NatToDecimal(n);
    NatToDecimalNoComma(n);
    SplitComma(digits, rest);
    SequenceFieldAfterHeader(header, digits + "," + rest);
    assert header + digits + "," + rest == header + (digits + "," + rest);
    ParseNatOfNatToDecimal(n);
  }

  /**
   * The two string builders put their fields between commas, and whatever
   * the argument text, the field after '=' reads back the sequence number.
   */
  lemma CreateATREFCommandFields(sequenceNumber: UInt32, command: string, newline: string)
    ensures CreateATREFCommand(sequenceNumber, command, newline)
         == "AT*REF=" + Join([NatToDecimal(sequenceNumber), command]) + newline
    ensures SequenceField(CreateATREFCommand(sequenceNumber, command, newline)) == Some(sequenceNumber)
  {
    var text := CreateATREFCommand(sequenceNumber, command, newline);
    assert SequenceField(text) == Some(sequenceNumber) by {
      var lead := "AT*REF=" + NatToDecimal(sequenceNumber) + ",";
      assert text == lead + (command + newline);
      SequenceFieldOfNumber("AT*REF=", sequenceNumber, command + newline);
    }
  }

  lemma CreateATPCMDCommandFields(sequenceNumber: UInt32, command: string, newline: string, mode: int)
    ensures CreateATPCMDCommand(sequenceNumber, command, newline, mode)
         == "AT*PCMD=" + Join([NatToDecimal(sequenceNumber), IntToDecimal(mode), command]) + newline
    ensures SequenceField(CreateATPCMDCommand(sequenceNumber, command, newline, mode)) == Some(sequenceNumber)
  {
    var digits := NatToDecimal(sequenceNumber);
    var text := CreateATPCMDCommand(sequenceNumber, command, newline, mode);
    assert text == "AT*PCMD=" + Join([digits, IntToDecimal(mode), command]) + newline by {
      JoinThree(digits, IntToDecimal(mode), command);
    }
    assert SequenceField(text) == Some(sequenceNumber) by {
      var tail := IntToDecimal(mode) + "," + command + newline;
      Regroup("AT*PCMD=" + digits + ",", IntToDecimal(mode), command, newline);
      SequenceFieldOfNumber("AT*PCMD=", sequenceNumber, tail);
    }
  }

  lemma TakeoffCodeDecimal()
    ensures NatToDecimal(TakeoffCode) == "290718208"
  {
    assert NatToDecimal(29) == "29";
    assert NatToDecimal(290) == "290";
    assert NatToDecimal(2907) == "2907";
    assert NatToDecimal(29071) == "29071";
    assert NatToDecimal(290718) == "290718";
    assert NatToDecimal(2907182) == "2907182";
    assert NatToDecimal(29071820) == "29071820";
  }
  lemma LandCodeDecimal()
    ensures NatToDecimal(LandCode) == "290717696"
  {
    assert NatToDecimal(29) == "29";
    assert NatToDecimal(290) == "290";
    assert NatToDecimal(2907) == "2907";
    assert NatToDecimal(29071) == "29071";
    assert NatToDecimal(290717) == "290717";
    assert NatToDecimal(2907176) == "2907176";
    assert NatToDecimal(29071769) == "29071769";
  }
  lemma HoverArguments(n: nat, newline: string)
    ensures "AT*PCMD=" + Join([NatToDecimal(n), IntToDecimal(0), "0,0,0,0"]) + newline
         == Render(Pcmd(n, 0, 0, 0, 0, 0), newline)
  {
    var zero := IntToDecimal(0);
    assert zero == "0";
    JoinFour(zero, zero, zero, zero);
    assert Join([zero, zero, zero, zero]) == "0,0,0,0";
    PcmdArguments(NatToDecimal(n), zero, [zero, zero, zero, zero]);
    assert [NatToDecimal(n), zero] + [zero, zero, zero, zero] == Arguments(Pcmd(n, 0, 0, 0, 0, 0));
  }
  lemma MoveArguments(n: nat, mode: int, x: int, y: int, a: int, r: int, newline: string)
    ensures "AT*PCMD=" + Join([NatToDecimal(n), IntToDecimal(mode),
                               IntToDecimal(x) + "," + IntToDecimal(y) + "," + IntToDecimal(a) + "," + IntToDecimal(r)])
            + newline
         == Render(Pcmd(n, mode, x, y, a, r), newline)
  {
    var values := [IntToDecimal(x), IntToDecimal(y), IntToDecimal(a), IntToDecimal(r)];
    JoinFour(values[0], values[1], values[2], values[3]);
    PcmdArguments(NatToDecimal(n), IntToDecimal(mode), values);
    assert [NatToDecimal(n), IntToDecimal(mode)] + values == Arguments(Pcmd(n, mode, x, y, a, r));
  }
  lemma TakeoffRenders(sequenceNumber: UInt32, newline: string)
    ensures GetDroneTakeoff(sequenceNumber, newline) == Render(Ref(sequenceNumber, TakeoffCode), newline)
  {
    TakeoffCodeDecimal();
    CreateATREFCommandFields(sequenceNumber, "290718208", newline);
  }

  lemma LandRenders(sequenceNumber: UInt32, newline: string)
    ensures GetDroneLand(sequenceNumber, newline) == Render(Ref(sequenceNumber, LandCode), newline)
  {
    LandCodeDecimal();
    CreateATREFCommandFields(sequenceNumber, "290717696", newline);
  }

  lemma HoverRenders(sequenceNumber: UInt32, newline: string)
    ensures GetHoveringCommand(sequenceNumber, newline) == Render(Pcmd(sequenceNumber, 0, 0, 0, 0, 0), newline)
  {
    HoverArguments(sequenceNumber, newline);
    CreateATPCMDCommandFields(sequenceNumber, "0,0,0,0", newline, 0);
  }

  lemma MoveRenders(sequenceNumber: UInt32, velocityX: real, velocityY: real, velocityAscend: real,
                    velocityRoll: real, fc: FloatConversion, newline: string)
    ensures GetDroneMove(sequenceNumber, velocityX, velocityY, velocityAscend, velocityRoll, fc, newline)
         == Render(Pcmd(sequenceNumber, 1, fc(velocityX), fc(velocityY), fc(velocityAscend), fc(velocityRoll)), newline)
  {
    MoveArguments(sequenceNumber, 1, fc(velocityX), fc(velocityY), fc(velocityAscend), fc(velocityRoll), newline);
    var command := IntToDecimal(fc(velocityX)) + "," + IntToDecimal(fc(velocityY)) + ","
                   + IntToDecimal(fc(velocityAscend)) + "," + IntToDecimal(fc(velocityRoll));
    CreateATPCMDCommandFields(sequenceNumber, command, newline, 1);
  }

  lemma StrafeRenders(sequenceNumber: UInt32, velocityX: real, velocityY: real, fc: FloatConversion, newline: string)
    ensures GetDroneStrafe(sequenceNumber, velocityX, velocityY, fc, newline)
         == Render(Pcmd(sequenceNumber, 1, fc(velocityX), fc(velocityY), 0, 0), newline)
  {
    MoveArguments(sequenceNumber, 1, fc(velocityX), fc(velocityY), 0, 0, newline);
    var command := IntToDecimal(fc(velocityX)) + "," + IntToDecimal(fc(velocityY)) + ",0,0";
    assert command == IntToDecimal(fc(velocityX)) + "," + IntToDecimal(fc(velocityY)) + ","
                      + IntToDecimal(0) + "," + IntToDecimal(0);
    CreateATPCMDCommandFields(sequenceNumber, command, newline, 1);
  }

  lemma StrafeLeftRightRenders(sequenceNumber: UInt32, velocity: real, fc: FloatConversion, newline: string)
    ensures GetDroneStrafeLeftRight(sequenceNumber, velocity, fc, newline)
         == Render(Pcmd(sequenceNumber, 1, fc(velocity), 0, 0, 0), newline)
  {
    MoveArguments(sequenceNumber, 1, fc(velocity), 0, 0, 0, newline);
    var command := IntToDecimal(fc(velocity)) + ",0,0,0";
    assert command == IntToDecimal(fc(velocity)) + "," + IntToDecimal(0) + ","
                      + IntToDecimal(0) + "," + IntToDecimal(0);
    CreateATPCMDCommandFields(sequenceNumber, command, newline, 1);
  }

  lemma StrafeForwardBackwardRenders(sequenceNumber: UInt32, velocity: real, fc: FloatConversion, newline: string)
    ensures GetDroneStrafeForwardBackward(sequenceNumber, velocity, fc, newline)
         == Render(Pcmd(sequenceNumber, 1, 0, fc(velocity), 0, 0), newline)
  {
    MoveArguments(sequenceNumber, 1, 0, fc(velocity), 0, 0, newline);
    var v := IntToDecimal(fc(velocity));
    var command := "0," + v + ",0,0";
    assert IntToDecimal(0) == "0";
    assert "0," + v + "," + "0" == "0," + v + ",0";
    assert "0," + v + ",0" + "," == "0," + v + ",0,";
    assert command == IntToDecimal(0) + "," + v + "," + IntToDecimal(0) + "," + IntToDecimal(0);
    CreateATPCMDCommandFields(sequenceNumber, command, newline, 1);
  }

  lemma AscendDescendRenders(sequenceNumber: UInt32, velocity: real, fc: FloatConversion, newline: string)
    ensures GetDroneAscendDescend(sequenceNumber, velocity, fc, newline)
         == Render(Pcmd(sequenceNumber, 1, 0, 0, fc(velocity), 0), newline)
  {
    MoveArguments(sequenceNumber, 1, 0, 0, fc(velocity), 0, newline);
    var command := "0,0," + IntToDecimal(fc(velocity)) + ",0";
    assert command == IntToDecimal(0) + "," + IntToDecimal(0) + ","
                      + IntToDecimal(fc(velocity)) + "," + IntToDecimal(0);
    CreateATPCMDCommandFields(sequenceNumber, command, newline, 1);
  }

  // ---------------------------------------------------------------------
  // Properties of the builders
  // ---------------------------------------------------------------------

  /** The literal zeros of the test helpers agree with a converted zero velocity. */
  lemma AscendDescendIsMove(sequenceNumber: UInt32, velocity: real, fc: FloatConversion, newline: string)
    requires InCodeVectors(fc)
    ensures GetDroneAscendDescend(sequenceNumber, velocity, fc, newline)
         == GetDroneMove(sequenceNumber, 0.0, 0.0, velocity, 0.0, fc, newline)
  {
    AscendDescendRenders(sequenceNumber, velocity, fc, newline);
    MoveRenders(sequenceNumber, 0.0, 0.0, velocity, 0.0, fc, newline);
  }

  /** Hovering is not the same command as moving at zero velocity: the mode differs. */
  lemma HoverIsNotZeroMove(sequenceNumber: UInt32, fc: FloatConversion, newline: string)
    ensures GetHoveringCommand(sequenceNumber, newline)
         != GetDroneMove(sequenceNumber, 0.0, 0.0, 0.0, 0.0, fc, newline)
  {
    var move := Pcmd(sequenceNumber, 1, fc(0.0), fc(0.0), fc(0.0), fc(0.0));
    HoverRenders(sequenceNumber, newline);
    MoveRenders(sequenceNumber, 0.0, 0.0, 0.0, 0.0, fc, newline);
    ParseRender(Pcmd(sequenceNumber, 0, 0, 0, 0, 0), newline);
    ParseRender(move, newline);
  }

  /** What the device reads from the takeoff, land, hover and move commands. */
  lemma DecodedCommands(sequenceNumber: UInt32, x: real, y: real, a: real, r: real,
                        fc: FloatConversion, newline: string)
    ensures Parse(GetDroneTakeoff(sequenceNumber, newline), newline) == Some(Ref(sequenceNumber, TakeoffCode))
    ensures Parse(GetDroneLand(sequenceNumber, newline), newline) == Some(Ref(sequenceNumber, LandCode))
    ensures Parse(GetHoveringCommand(sequenceNumber, newline), newline) == Some(Pcmd(sequenceNumber, 0, 0, 0, 0, 0))
    ensures Parse(GetDroneMove(sequenceNumber, x, y, a, r, fc, newline), newline)
         == Some(Pcmd(sequenceNumber, 1, fc(x), fc(y), fc(a), fc(r)))
  {
    TakeoffRenders(sequenceNumber, newline);
    LandRenders(sequenceNumber, newline);
    HoverRenders(sequenceNumber, newline);
    MoveRenders(sequenceNumber, x, y, a, r, fc, newline);
    ParseRender(Ref(sequenceNumber, TakeoffCode), newline);
    ParseRender(Ref(sequenceNumber, LandCode), newline);
    ParseRender(Pcmd(sequenceNumber, 0, 0, 0, 0, 0), newline);
    ParseRender(Pcmd(sequenceNumber, 1, fc(x), fc(y), fc(a), fc(r)), newline);
  }

  /**
   * A move at (1, 0, 0, 0), with the conversions of the source's comments,
   * carries the bit pattern of 1.0 in its x field and zeros elsewhere.
   */
  lemma MoveExample(newline: string, fc: FloatConversion)
    requires InCodeVectors(fc)
    ensures Parse(GetDroneMove(10, 1.0, 0.0, 0.0, 0.0, fc, newline), newline) == Some(Pcmd(10, 1, 1065353216, 0, 0, 0))
  {
    DecodedCommands(10, 1.0, 0.0, 0.0, 0.0, fc, newline);
  }
}
