# ArDrone2 command path, modelled in Dafny

This project models the command path of the ArDrone2 interaction library, which flies a Parrot AR.Drone 2.0 over UDP. It has three parts:

- **Flight state** (`DroneState`, module `FlightState`, `flight_state.dfy`). Four velocity axes, the operator's `Flying` request and the internal `isFlying` edge marker, updated in place.
  - The property setters clamp into [-1, 1] (`Normalize`).
  - The directional helpers clamp only from below (`NormalizePositive`) and add the sign of their direction.
  - `GetNextCommand` picks one command per tick, in this priority order: the takeoff edge, the land edge, movement while flying, hover. It brings `isFlying` up to date, so an edge command fires once per edge.
- **Command encoder** (`DroneMovement`, module `DroneMovement`, `drone_movement.dfy`). Pure string builders for the AT command grammar: `AT*REF=<seq>,<code>` and `AT*PCMD=<seq>,<mode>,<x>,<y>,<ascend>,<roll>`, each followed by the platform newline.
  - Each builder is proved equal to `Render` of a `Command` value.
  - `Parse` reads a rendering back (`ParseRender`). `SequenceField` reads the sequence number that follows `=`.
  - Decimal rendering of integers and its inverse are in `decimal.dfy`. Comma joining and splitting are in `comma_fields.dfy`.
- **Control loop** (`DroneControl`, module `ControlLoop`, `control_loop.dfy`). The `sequenceNumber` and `stop` fields, connect, send, close and stop, and the loop.
  - `Tick` is one iteration of the loop. `DroneLoop(ticks)` runs a bounded number of iterations.
  - `sequenceNumber` is a C# `uint`, so `++` wraps modulo 2^32 (`Increment`, `Advance`).
  - Two ghost logs stand for the transport:
    - `sent` holds the frame of every command passed to `SendCommandAsync`.
    - `wire` holds every datagram written to the socket: the one-byte `Handshake`, or `Text(c)` for the ASCII bytes of `Render(c, newline)`.

Parameters of the model:

- The platform newline (`Environment.NewLine`) is a parameter `newline: string`.
- The single-precision bit reinterpretation `FloatConversion` is a parameter `fc: real -> Int32`. The predicate `InCodeVectors(fc)` fixes it at the four values the source's comments record (1.0 → 1065353216, -1.0 → -1082130432, 0.5 → 1056964608, -0.5 → -1090519040). It also fixes 0.0 → 0, the bit pattern of single-precision +0.0; no comment records that one. Only the concrete scenarios require it.
- The static classes of the source become objects. A `DroneControl` holds the `DroneState` it reads.

Three behaviours of the source that a reader of its method names and of the comment on `Stop` ("suspends the control loop and resets the sequence number counter") might not expect. The model follows the code:

- `Stop()` called while no loop runs is not a no-op. The flag stays set, and the first iteration of the next loop exits at once and resets the number to 1 (`ControlLoop.StopBeforeStart`).
- `DroneLoop` has no `try`/`catch`. A failed send, such as a missing socket outside stub mode, ends the loop task with the exception (`Faulted`, `FaultedOnSend`).
- Outside stub mode, `Close()` on a missing socket throws before it reaches `Stop()`. So `Close` sets the stop flag only in stub mode or when a socket is open (`ControlLoop.CloseBeforeConnect`).

## Model

| member | source | states |
|---|---|---|
| Decimal.NatToDecimalCanonical | ArDrone2.Interaction.Shared/DroneMovement.cs:103 | the decimal rendering of a `uint` is a non-empty string of digits with no leading zero |
| Decimal.DecimalToNatOfNatToDecimal | ArDrone2.Interaction.Shared/DroneMovement.cs:103 | reading a rendered number back gives the number |
| Decimal.NatToDecimalOfDecimalToNat | ArDrone2.Interaction.Shared/DroneMovement.cs:103 | every canonical numeral is the rendering of its value, so rendering is a bijection onto canonical numerals |
| Decimal.ParseNatOfNatToDecimal | ArDrone2.Interaction.Shared/DroneMovement.cs:103 | the numeral parser accepts every rendered `uint` and returns it |
| Decimal.NatToDecimalOfParseNat | ArDrone2.Interaction.Shared/DroneMovement.cs:103 | every canonical numeral parses, and renders back to itself |
| Decimal.IntToDecimalShape | ArDrone2.Interaction.Shared/DroneMovement.cs:53 | an `int` renders as digits with a leading '-' exactly when it is negative |
| Decimal.ParseIntOfIntToDecimal | ArDrone2.Interaction.Shared/DroneMovement.cs:109 | a rendered `int` (mode or converted velocity) parses back to itself, negatives included |
| CommaFields.SplitJoin | ArDrone2.Interaction.Shared/DroneMovement.cs:53 | splitting comma-joined comma-free fields gives back the fields |
| CommaFields.JoinSplit | ArDrone2.Interaction.Shared/DroneMovement.cs:53 | joining the fields of a split gives back the string |
| DroneMovement.Render | ArDrone2.Interaction.Shared/DroneMovement.cs:101-110 | every command starts with "AT*" and ends with the newline |
| DroneMovement.ParseArguments | ArDrone2.Interaction.Shared/DroneMovement.cs:101-110 | the comma-separated argument list of a command parses back to that command |
| DroneMovement.ParseRender | ArDrone2.Interaction.Shared/DroneMovement.cs:101-110 | parsing a rendered command gives back the command: the grammar is decodable |
| DroneMovement.RenderInjective | ArDrone2.Interaction.Shared/DroneMovement.cs:101-110 | two commands with the same text are the same command |
| DroneMovement.SequenceFieldRender | ArDrone2.Interaction.Shared/DroneMovement.cs:101-110 | the decimal field right after '=' reads back as the command's sequence number |
| DroneMovement.CreateATREFCommandFields | ArDrone2.Interaction.Shared/DroneMovement.cs:101-104 | whatever the argument text, the field after `AT*REF=` reads back the sequence number; the fields are the number and the argument, comma-separated, then the newline |
| DroneMovement.CreateATPCMDCommandFields | ArDrone2.Interaction.Shared/DroneMovement.cs:107-110 | whatever the mode and argument text, the field after `AT*PCMD=` reads back the sequence number; the fields are the number, the mode and the argument, comma-separated, then the newline |
| DroneMovement.TakeoffRenders | ArDrone2.Interaction.Shared/DroneMovement.cs:27-30 | the takeoff command is `AT*REF=<seq>,290718208` and the newline |
| DroneMovement.LandRenders | ArDrone2.Interaction.Shared/DroneMovement.cs:33-36 | the land command is `AT*REF=<seq>,290717696` and the newline |
| DroneMovement.HoverRenders | ArDrone2.Interaction.Shared/DroneMovement.cs:39-42 | the hover command is `AT*PCMD=<seq>,0,0,0,0,0`: mode 0 and four literal zeros |
| DroneMovement.MoveRenders | ArDrone2.Interaction.Shared/DroneMovement.cs:46-55 | the move command has mode 1 and the four converted velocities in the order x, y, ascend, roll |
| DroneMovement.StrafeRenders | ArDrone2.Interaction.Shared/DroneMovement.cs:60-67 | mode 1, the converted x and y, then literal zeros for ascend and roll |
| DroneMovement.StrafeLeftRightRenders | ArDrone2.Interaction.Shared/DroneMovement.cs:70-76 | mode 1, the converted velocity in the x field, literal zeros in the other three |
| DroneMovement.StrafeForwardBackwardRenders | ArDrone2.Interaction.Shared/DroneMovement.cs:79-85 | mode 1, the converted velocity in the y field, literal zeros in the other three |
| DroneMovement.AscendDescendRenders | ArDrone2.Interaction.Shared/DroneMovement.cs:88-94 | mode 1, the converted velocity in the ascend field (`0,0,<v>,0`) |
| DroneMovement.AscendDescendIsMove | ArDrone2.Interaction.Shared/DroneMovement.cs:88-94 | when zero converts to 0, the ascend helper equals the move command with only the ascend axis set |
| DroneMovement.HoverIsNotZeroMove | ArDrone2.Interaction.Shared/DroneMovement.cs:39-55 | hovering differs from a move at zero velocity: the mode field is 0 rather than 1 |
| DroneMovement.DecodedCommands | ArDrone2.Interaction.Shared/DroneMovement.cs:27-55 | what the device parses from the takeoff, land, hover and move commands |
| DroneMovement.MoveExample | ArDrone2.Interaction.Shared/DroneMovement.cs:113-117 | with the in-code conversion values, a move at (1, 0, 0, 0) carries 1065353216 in x and 0 elsewhere |
| FlightState.Normalize | ArDrone2.Interaction.Shared/DroneState.cs:232-241 | the result lies in [-1, 1] and equals the input when the input already does |
| FlightState.NormalizeIsNearest | ArDrone2.Interaction.Shared/DroneState.cs:232-241 | `Normalize` returns the point of [-1, 1] nearest to its input |
| FlightState.NormalizePositive | ArDrone2.Interaction.Shared/DroneState.cs:243-252 | the result is non-negative and equals every non-negative input; there is no upper cap |
| FlightState.NormalizePositiveIsNearest | ArDrone2.Interaction.Shared/DroneState.cs:243-252 | `NormalizePositive` returns the non-negative number nearest to its input |
| FlightState.NormalizeMonotone | ArDrone2.Interaction.Shared/DroneState.cs:232-252 | both clamps preserve order |
| FlightState.NormalizeIdempotent | ArDrone2.Interaction.Shared/DroneState.cs:232-252 | clamping twice is clamping once |
| FlightState.Decide | ArDrone2.Interaction.Shared/DroneState.cs:257-272 | each of takeoff, land, move and hover is chosen exactly under its condition; the edges take priority over movement |
| FlightState.EdgeFiresOnce | ArDrone2.Interaction.Shared/DroneState.cs:254-273 | once the edge marker equals the request, neither takeoff nor land is chosen |
| FlightState.FrameOf | ArDrone2.Interaction.Shared/DroneState.cs:254-273 | the chosen command carries the sequence number it is built for |
| FlightState.DroneState.constructor | ArDrone2.Interaction.Shared/DroneState.cs:30-74 | all axes start at 0, not flying, edge marker clear |
| FlightState.DroneState.NextFrame | ArDrone2.Interaction.Shared/DroneState.cs:254-273 | the command for the current state carries the given sequence number |
| FlightState.DroneState.NextCommandNumbered | ArDrone2.Interaction.Shared/DroneState.cs:254-273 | the text of the chosen command reads back the given sequence number |
| FlightState.DroneState.NextCommandDecodes | ArDrone2.Interaction.Shared/DroneState.cs:257-272 | for each branch of the priority order, what the device parses from the chosen command |
| FlightState.DroneState.SetStrafeX | ArDrone2.Interaction.Shared/DroneState.cs:37-40 | stores `Normalize(value)` in x and touches nothing else |
| FlightState.DroneState.SetStrafeY | ArDrone2.Interaction.Shared/DroneState.cs:47-50 | stores `Normalize(value)` in y and touches nothing else |
| FlightState.DroneState.SetAscendY | ArDrone2.Interaction.Shared/DroneState.cs:57-60 | stores `Normalize(value)` in ascend and touches nothing else |
| FlightState.DroneState.SetRollX | ArDrone2.Interaction.Shared/DroneState.cs:67-70 | stores `Normalize(value)` in roll and touches nothing else |
| FlightState.DroneState.TakeOff | ArDrone2.Interaction.Shared/DroneState.cs:78-81 | sets the flying request and nothing else |
| FlightState.DroneState.Land | ArDrone2.Interaction.Shared/DroneState.cs:83-86 | clears the flying request and nothing else |
| FlightState.DroneState.GoUp | ArDrone2.Interaction.Shared/DroneState.cs:89-93 | ascend becomes `+NormalizePositive(value)`; only that axis changes |
| FlightState.DroneState.GoDown | ArDrone2.Interaction.Shared/DroneState.cs:96-100 | ascend becomes `-NormalizePositive(value)`; only that axis changes |
| FlightState.DroneState.StopAscend | ArDrone2.Interaction.Shared/DroneState.cs:102-105 | ascend becomes 0; only that axis changes |
| FlightState.DroneState.GoForward | ArDrone2.Interaction.Shared/DroneState.cs:122-126 | y becomes `-NormalizePositive(value)`; only that axis changes |
| FlightState.DroneState.GoBackward | ArDrone2.Interaction.Shared/DroneState.cs:129-133 | y becomes `+NormalizePositive(value)`; only that axis changes |
| FlightState.DroneState.StopForwardBackward | ArDrone2.Interaction.Shared/DroneState.cs:135-138 | y becomes 0; only that axis changes |
| FlightState.DroneState.GoLeft | ArDrone2.Interaction.Shared/DroneState.cs:155-159 | x becomes `-NormalizePositive(value)`; only that axis changes |
| FlightState.DroneState.GoRight | ArDrone2.Interaction.Shared/DroneState.cs:162-166 | x becomes `+NormalizePositive(value)`; only that axis changes |
| FlightState.DroneState.StopLeftRight | ArDrone2.Interaction.Shared/DroneState.cs:168-171 | x becomes 0; only that axis changes |
| FlightState.DroneState.RotateRight | ArDrone2.Interaction.Shared/DroneState.cs:188-192 | roll becomes `+NormalizePositive(value)`; only that axis changes |
| FlightState.DroneState.RotateLeft | ArDrone2.Interaction.Shared/DroneState.cs:195-199 | roll becomes `-NormalizePositive(value)`; only that axis changes |
| FlightState.DroneState.StopRotate | ArDrone2.Interaction.Shared/DroneState.cs:201-204 | roll becomes 0; only that axis changes |
| FlightState.DroneState.Stop | ArDrone2.Interaction.Shared/DroneState.cs:220-226 | all four axes become 0; the flying request and the edge marker are untouched |
| FlightState.DroneState.GetNextCommand | ArDrone2.Interaction.Shared/DroneState.cs:254-273 | the rising edge gives takeoff, the falling edge gives land, otherwise move (flying with a nonzero axis) or hover; afterwards `isFlying == Flying`; no axis and not the request changes |
| FlightState.TakeOffScenario | ArDrone2.Interaction.Shared/DroneState.cs:254-273 | after `TakeOff`, takeoff is sent once, then hover, then a move once an axis is set |
| FlightState.GoUpBeyondUnitRange | ArDrone2.Interaction.Shared/DroneState.cs:89-93 | `GoUp(2)` stores 2: [-1, 1] is not an invariant of the axes |
| ControlLoop.IncrementWraps | ArDrone2.Interaction.Shared/DroneControl.cs:133 | `sequenceNumber++` on a `uint` is addition modulo 2^32 |
| ControlLoop.AdvanceWraps | ArDrone2.Interaction.Shared/DroneControl.cs:133 | n increments add n modulo 2^32 |
| ControlLoop.AdvanceDistinct | ArDrone2.Interaction.Shared/DroneControl.cs:133 | fewer than 2^32 increments never repeat a sequence number |
| ControlLoop.AdvanceShift | ArDrone2.Interaction.Shared/DroneControl.cs:133 | n increments from the successor are n + 1 increments |
| ControlLoop.TextsAt | ArDrone2.Interaction.Shared/DroneControl.cs:94-95 | the k-th datagram carries the k-th frame |
| ControlLoop.NumberedAt | ArDrone2.Interaction.Shared/DroneControl.cs:119-136 | in a run numbered from `first`, frame k carries `(first + k) mod 2^32`: no gaps, no repeats |
| ControlLoop.NumberedTextAt | ArDrone2.Interaction.Shared/DroneControl.cs:119-136 | the text of frame k reads back `(first + k) mod 2^32` after '=' |
| ControlLoop.NumberedDistinct | ArDrone2.Interaction.Shared/DroneControl.cs:119-136 | the frames of a run of at most 2^32 ticks are pairwise distinct |
| ControlLoop.SteadyAt | ArDrone2.Interaction.Shared/DroneControl.cs:119-136 | in a steady run, frame k is the command the unchanged controls give for number first + k |
| ControlLoop.LeadThenSteadyNumbered | ArDrone2.Interaction.Shared/DroneControl.cs:119-136 | a first frame followed by a steady run from the next number is numbered without gaps |
| ControlLoop.DroneControl.constructor | ArDrone2.Interaction.Shared/DroneControl.cs:42-45 | the sequence number starts at 1, the stop flag clear, no socket, nothing sent |
| ControlLoop.DroneControl.SetStubMode | ArDrone2.Interaction.Shared/DroneControl.cs:45 | sets stub mode and nothing else |
| ControlLoop.DroneControl.Connect | ArDrone2.Interaction.Shared/DroneControl.cs:50-75 | outside stub mode, opens the socket and writes the handshake; in stub mode, writes nothing; in both cases it starts the loop |
| ControlLoop.DroneControl.SendCommand | ArDrone2.Interaction.Shared/DroneControl.cs:78-98 | traces every command; writes its text only outside stub mode; fails on a missing socket outside stub mode |
| ControlLoop.DroneControl.Tick | ArDrone2.Interaction.Shared/DroneControl.cs:121-135 | with the stop flag set: clears it, resets the number to 1, sends nothing and exits; otherwise sends exactly the command built for the current number, then increments it (mod 2^32) unless the send failed |
| ControlLoop.DroneControl.SteadyTicks | ArDrone2.Interaction.Shared/DroneControl.cs:121-135 | with no edge pending and no stop request, n ticks send n frames built from the same controls, numbered consecutively, and advance the number by n |
| ControlLoop.DroneControl.DroneLoop | ArDrone2.Interaction.Shared/DroneControl.cs:119-136 | no ticks change nothing; a run exits at once on a pending stop with the edge marker kept, faults on a missing socket with the edge marker brought up to date, or else sends `ticks` frames numbered consecutively from the current number (mod 2^32). Its first frame is the command for the state at entry, the rest follow the unchanged controls, and in stub mode nothing reaches the socket |
| ControlLoop.DroneControl.Stop | ArDrone2.Interaction.Shared/DroneControl.cs:139-142 | sets the stop flag and nothing else |
| ControlLoop.DroneControl.Close | ArDrone2.Interaction.Shared/DroneControl.cs:101-117 | closes the socket outside stub mode, then sets the stop flag; on a missing socket outside stub mode it fails before `Stop` |
| ControlLoop.FreshStubRun | ArDrone2.Interaction.Shared/DroneControl.cs:42-136 | from the initial state in stub mode, n ticks send frames numbered 1, 2, …, n (mod 2^32) and write nothing to the socket |
| ControlLoop.StopBeforeStart | ArDrone2.Interaction.Shared/DroneControl.cs:123-128 | a stop requested before the loop starts makes its first tick exit and reset the number to 1 |
| ControlLoop.CloseBeforeConnect | ArDrone2.Interaction.Shared/DroneControl.cs:101-117 | outside stub mode, closing with no socket fails and leaves the stop flag clear |

## Left out

- IEEE-754 semantics of `FloatConversion` (the double-to-float rounding and the byte order of `BitConverter`): floating point in a foreign library. `fc` is a parameter, pinned only at the five values `InCodeVectors` lists.
- NaN and infinity in `Normalize`, `NormalizePositive` and the `!= 0` test: velocities are `real`.
- Signed zero: `real` identifies -0.0 with 0.0. In the source, -0.0 reaches an axis in two ways. The negating helpers `GoDown`, `GoForward`, `GoLeft` and `RotateLeft` compute `NormalizePositive(v) * -1`, which is -0.0 for a magnitude of +0.0 or below. A magnitude of -0.0 is not below 0, so it is returned as it is and negated to +0.0. Every other helper (`GoUp`, `GoBackward`, `GoRight`, `RotateRight`) and each of the four setters stores -0.0 when given -0.0, because both clamps return such an input unchanged. The `!= 0` test of `GetNextCommand` treats -0.0 as zero, but `FloatConversion(-0.0)` is the bit pattern 0x80000000, i.e. -2147483648. So the pin fc(0.0) == 0 holds only for +0.0. For example, after `GoLeft(0.0)` and `GoUp(0.5)` while flying, the source sends -2147483648 in the x field, where the model sends 0.
- Culture-dependent number formatting: `string.Format` is called without a format provider, so the source prints the `int` fields (mode and converted velocities) with the current culture's `NumberFormatInfo.NegativeSign`. The model renders numbers as in the invariant culture, with `NegativeSign` "-". `IntToDecimal`, `IntToDecimalShape` and `ParseIntOfIntToDecimal` hold only for that sign. A culture whose sign is U+2212 would put '?' on the wire after `Encoding.ASCII`.
- `Environment.NewLine` is a parameter, and `Encoding.ASCII` is not modelled: `Text(c)` stands for the ASCII bytes of `Render(c, newline)`.
- Socket construction, `Connect` to the host and port (`HOST_NAME`, `REMOTE_PORT`, `int.Parse(port)`), `DataWriter` and the `#if WINDOWS_APP` branches: transport I/O. The socket is the flag `socketOpen`, and writes are appended to the ghost log `wire`.
- Failures of the transport on an open socket (a refused connection, a failing `SendAsync` or `Dispose`): only the missing-socket failure, which comes from the code's own state, is modelled.
- `Trace.WriteLine` / `Debug.WriteLine`: the ghost log `sent` records what they would print, as frames rather than text; `SendCommand` requires that its text is `Render` of its frame.
- `Task.Run`, `await`, `Task.Delay(30)` and `volatile`: ticks run sequentially. `Connect` marks the loop as started, and `DroneLoop(ticks)` runs a bounded number of its iterations. Callers of `Stop` or of the setters take effect only between runs, and a second concurrent loop is not modelled.
- ControlLoop.DroneControl.DroneLoop: the `while (true)` loop is bounded by `ticks`. For the proof, its first iteration is a call of `Tick` and the remaining iterations are the loop in `SteadyTicks`, because only the first can meet the stop flag, a missing socket or an edge.
- The `*ForAsync` helpers of `DroneState` (`GoUpForAsync` and the rest): each is its `GoX` method, an asynchronous delay, then its `StopX` method. Both methods are modelled; the delay is timing.
- The static classes `DroneState` and `DroneControl` become objects; a `DroneControl` holds the `DroneState` it reads.
