/**
 * AtMega/arduinoSerialRead/arduinoSerialRead.ino: the mode latches, the frame collector, the command
 * dispatch and the pins, one iteration of the loop at a time.
 */
module Firmware {
  import opened Coaster

  // ------------------------------------------------------------------------------------ inputs

  /** Every `digitalRead` an iteration may make, each its own sample. Those it does not reach are unused. */
  datatype Samples = Samples(
    ignition: bool, estop: bool, maintenanceSwitch: bool, manualSwitch: bool,      // readState
    startButton: bool,                                                             // manual
    checkoutIgnition: bool, acknowledge: bool, estopInSafe: bool,                  // getSafe
    estopFirst: bool, estopSecond: bool, reset: bool, ignitionInStop: bool,        // stop
    rideStop: bool, liftStop: bool, stationSwitchStop: bool, hillSwitchStop: bool, // maintenance
    liftStart: bool, stationSwitchStart: bool, hillSwitchStart: bool)

  // ----------------------------------------------------------------------------------- latches

  datatype Latches = Latches(returnToSafe: bool, recoverEstop: bool)

  const POWER_ON := Latches(true, false)

  function ReadState(l: Latches, s: Samples): (r: (byte, Latches)) {
    if l.returnToSafe then (RETURN_TO_SAFE, l)
    else if l.recoverEstop then (STOP, l)
    else if !s.ignition then (RETURN_TO_SAFE, l.(returnToSafe := true))
    else if s.estop then (STOP, l.(recoverEstop := true))
    else if s.maintenanceSwitch then (MAINTENANCE, l)
    else if s.manualSwitch then (MANUAL, l)
    else (AUTOMATIC, l)
  }

  function Checkout(l: Latches, s: Samples): Latches {
    if !s.checkoutIgnition then l
    else if s.acknowledge then l.(returnToSafe := false)
    else l
  }

  function EmergencyStop(l: Latches, s: Samples): Latches {
    if s.estopFirst then l
    else if !s.estopSecond && s.reset then l.(recoverEstop := false)
    else l
  }

  /** The mode of an iteration. */
  function ModeOf(l: Latches, s: Samples): byte {
    ReadState(l, s).0
  }

  /** What the code of a mode does to the latches. */
  function AfterMode(l: Latches, mode: byte, s: Samples): Latches {
    if mode == RETURN_TO_SAFE then
      var l' := Checkout(l, s);
      if s.estopInSafe then l'.(recoverEstop := true) else l'
    else if mode == STOP then
      var l' := EmergencyStop(l, s);
      if !s.ignitionInStop then l'.(returnToSafe := true) else l'
    else l
  }

  /** The latches after a whole iteration. */
  function Tick(l: Latches, s: Samples): Latches {
    var (mode, l') := ReadState(l, s);
    AfterMode(l', mode, s)
  }

  // ---------------------------------------------------------------------------- frame collector

  const MAX_COLLECTED := 6

  /** What one look at the serial port brings; `message` is everything stored in `msg`, terminator included. */
  datatype Collected =
    | Waiting
    | Skipped(rest: seq<byte>)
    | Message(message: seq<byte>, rest: seq<byte>)

  /** The inner loop: stores bytes until a terminator or until six are stored. */
  function Gather(rx: seq<byte>, msg: seq<byte>): Collected
    decreases |rx|
  {
    if rx == [] then Waiting
    else
      var stored := msg + [rx[0]];
      if rx[0] == FRAME_END then Message(stored, rx[1..])
      else if |stored| >= MAX_COLLECTED then Skipped(rx[1..])
      else Gather(rx[1..], stored)
  }

  function Collect(rx: seq<byte>): Collected
    requires rx != []
  {
    if rx[0] == FRAME_START then Gather(rx[1..], []) else Skipped(rx[1..])
  }

  /** `msg[i]` after the buffer was cleared and `message` stored at its front. */
  function At(message: seq<byte>, i: nat): byte {
    if i < |message| then message[i] else 0
  }

  // --------------------------------------------------------------------------------------- pins

  datatype AnalogPin = PreStation1 | PreStation2 | Ride1 | Ride2 | DcStation | DcHill

  datatype BridgePin = AForward | ABackward | BForward | BBackward

  datatype Write = AnalogWrite(pin: AnalogPin, value: byte) | DigitalWrite(bridge: BridgePin, high: bool)

  datatype Board = Board(
    preStation1: byte, preStation2: byte, ride1: byte, ride2: byte, dcStation: byte, dcHill: byte,
    aForward: bool, aBackward: bool, bForward: bool, bBackward: bool)

  /** The pins as `setup` leaves them. */
  const AFTER_SETUP := Board(PRESTATION_STOP, PRESTATION_STOP, RIDE_STOP, RIDE_STOP, 0, 0, false, false, false, false)

  function Drive(b: Board, w: Write): Board {
    match w
    case AnalogWrite(PreStation1, v) => b.(preStation1 := v)
    case AnalogWrite(PreStation2, v) => b.(preStation2 := v)
    case AnalogWrite(Ride1, v) => b.(ride1 := v)
    case AnalogWrite(Ride2, v) => b.(ride2 := v)
    case AnalogWrite(DcStation, v) => b.(dcStation := v)
    case AnalogWrite(DcHill, v) => b.(dcHill := v)
    case DigitalWrite(AForward, high) => b.(aForward := high)
    case DigitalWrite(ABackward, high) => b.(aBackward := high)
    case DigitalWrite(BForward, high) => b.(bForward := high)
    case DigitalWrite(BBackward, high) => b.(bBackward := high)
  }

  function DriveAll(b: Board, ws: seq<Write>): Board {
    if ws == [] then b else Drive(DriveAll(b, ws[..|ws| - 1]), ws[|ws| - 1])
  }

  const STATION_FORWARD_A: seq<Write> := [
    DigitalWrite(AForward, false), DigitalWrite(ABackward, false),
    DigitalWrite(AForward, true), DigitalWrite(ABackward, false)]

  const HILL_FORWARD_B: seq<Write> := [
    DigitalWrite(BForward, false), DigitalWrite(BBackward, false),
    DigitalWrite(BForward, false), DigitalWrite(BBackward, true)]

  // ----------------------------------------------------------------------------------- dispatch

  /** The four actuator branches, the same in every mode that has them. */
  function ActuatorWrites(message: seq<byte>): seq<Write> {
    var code := At(message, 0);
    var value := At(message, 1);
    if code == CONTROL_SERVO_1 then [AnalogWrite(PreStation1, value), AnalogWrite(PreStation2, value)]
    else if code == CONTROL_SERVO_2 then [AnalogWrite(Ride1, value), AnalogWrite(Ride2, value)]
    else if code == CONTROL_DC_1 then STATION_FORWARD_A + [AnalogWrite(DcStation, value)]
    else if code == CONTROL_DC_2 then HILL_FORWARD_B + [AnalogWrite(DcHill, value)]
    else []
  }

  function RideStopWrites(s: Samples): seq<Write> {
    if s.rideStop then [AnalogWrite(DcStation, 0), AnalogWrite(DcHill, 0)] else []
  }

  function LiftStopWrites(s: Samples): seq<Write> {
    if !s.liftStop then []
    else if s.stationSwitchStop then [AnalogWrite(DcStation, 0)]
    else if s.hillSwitchStop then [AnalogWrite(DcHill, 0)]
    else []
  }

  function LiftStartWrites(s: Samples): seq<Write> {
    if !s.liftStart then []
    else if s.stationSwitchStart then STATION_FORWARD_A + [AnalogWrite(DcStation, 255)]
    else if s.hillSwitchStart then HILL_FORWARD_B + [AnalogWrite(DcHill, 255)]
    else []
  }

  function MaintenanceWrites(s: Samples): seq<Write> {
    [AnalogWrite(Ride1, 250), AnalogWrite(Ride2, 250), AnalogWrite(PreStation1, 180), AnalogWrite(PreStation2, 180)]
    + RideStopWrites(s) + LiftStopWrites(s) + LiftStartWrites(s)
  }

  /** What an iteration in `mode` writes to pins, given the message it collected, if any. */
  function WritesOf(mode: byte, message: Option<seq<byte>>, s: Samples): seq<Write> {
    if mode == MAINTENANCE then MaintenanceWrites(s)
    else if message.None? || At(message.value, 0) == REQUEST_BUTTON_STATE then []
    else ActuatorWrites(message.value)
  }

  /** What an iteration in `mode` answers. */
  function ReplyOf(mode: byte, message: Option<seq<byte>>, s: Samples): seq<byte> {
    if message.None? then []
    else if At(message.value, 0) == REQUEST_BUTTON_STATE then [SEND_BUTTON_STATE, mode]
    else if mode == MANUAL && At(message.value, 0) == SEND_CAN_SEND then
      [RESPOND_CAN_SEND, if At(message.value, 1) == 1 && s.startButton then 1 else 0]
    else []
  }

  // ------------------------------------------------------------------------------ whole iterations

  /** One iteration: whether a byte had arrived when it looked, and what its switches read. */
  datatype Slot = Slot(available: bool, samples: Samples)

  /** `Blocked` is an iteration that waits for ever inside a frame whose rest never arrives. */
  datatype Outcome =
    | Blocked
    | Done(latches: Latches, mode: byte, message: Option<seq<byte>>, writes: seq<Write>, reply: seq<byte>,
        rest: seq<byte>)

  function Iterate(l: Latches, rx: seq<byte>, slot: Slot): Outcome {
    var s := slot.samples;
    var mode := ModeOf(l, s);
    if slot.available && rx != [] then
      match Collect(rx)
      case Waiting => Blocked
      case Skipped(rest) => Done(Tick(l, s), mode, None, WritesOf(mode, None, s), [], rest)
      case Message(m, rest) =>
        Done(Tick(l, s), mode, Some(m), WritesOf(mode, Some(m), s), ReplyOf(mode, Some(m), s), rest)
    else Done(Tick(l, s), mode, None, WritesOf(mode, None, s), [], rx)
  }

  /** What a run of iterations has done so far. */
  datatype Progress = Progress(latches: Latches, rx: seq<byte>, board: Board, replies: seq<byte>, stuck: bool)

  function Advance(p: Progress, slot: Slot): Progress {
    if p.stuck then p
    else
      match Iterate(p.latches, p.rx, slot)
      case Blocked => p.(stuck := true)
      case Done(l, mode, m, ws, reply, rest) => Progress(l, rest, DriveAll(p.board, ws), p.replies + reply, false)
  }

  function RunFirmware(p: Progress, slots: seq<Slot>): Progress
    decreases slots
  {
    if slots == [] then p else RunFirmware(Advance(p, slots[0]), slots[1..])
  }
}
