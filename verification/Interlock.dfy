/** Pi/controller.c: what one control cycle commands, branch by branch, and what persists between cycles. */
module Interlock {
  import opened Coaster

  /** The controller's globals that outlive a cycle. */
  datatype Memory = Memory(state: byte, releaseGo: byte)

  const BOOT := Memory(STOP, 0)

  /** What one pass over the branches sends, and the `release_go` it leaves. */
  datatype Decision = Decision(sent: seq<Message>, releaseGo: byte)

  function LiftHillAutomatic(z: Snapshot): seq<Message> {
    if z.liftHill == Empty && z.station == Entered then [LiftHillForward(255)]
    else if z.liftHill == Empty then [LiftHillStop]
    else if z.liftHill == Entering then [LiftHillForward(255)]
    else if z.liftHill == Entered && z.ride == Empty then [LiftHillForward(255)]
    else if z.liftHill == Entered && z.ride != Empty then [LiftHillStop]
    else [LiftHillStop]
  }

  function LiftHillManual(z: Snapshot, releaseGo: byte): seq<Message> {
    if z.liftHill == Empty && z.station == Entered && releaseGo != 0 then [LiftHillForward(255)]
    else if z.liftHill == Empty then [LiftHillStop]
    else if z.liftHill == Entering then [LiftHillForward(255)]
    else if z.liftHill == Entered && z.ride == Empty then [LiftHillForward(255)]
    else if z.liftHill == Entered && z.ride != Empty then [LiftHillStop]
    else [LiftHillStop]
  }

  function StationAutomatic(z: Snapshot, releaseGo: byte): Decision {
    if z.station == Empty && z.preStation == Entered then Decision([StationForward(128)], releaseGo)
    else if z.station == Empty then Decision([StopStation], releaseGo)
    else if z.station == Entering then Decision([StationForward(128)], releaseGo)
    else if z.station == Entered && z.liftHill == Empty then Decision([StationForward(128)], releaseGo)
    else if z.station == Entered then Decision([StationForward(0)], 0)
    else Decision([StopStation], 0)
  }

  /** `reply` is what `sendCanSend(1)` returns if it is called. */
  function StationManual(z: Snapshot, releaseGo: byte, reply: byte): Decision {
    if z.station == Empty && z.preStation == Entered then Decision([StationForward(128)], releaseGo)
    else if z.station == Empty then Decision([StopStation], releaseGo)
    else if z.station == Entering then Decision([StationForward(128)], releaseGo)
    else if z.station == Entered && z.liftHill == Empty then
      var asked := if releaseGo == 0 then [CanSend(1)] else [];
      var go := if releaseGo == 0 then reply else releaseGo;
      Decision(asked + [if go != 0 then StationForward(128) else StopStation], go)
    else if z.station == Entered then Decision([StationForward(0)], 0)
    else Decision([StopStation], 0)
  }

  function PreStationRunning(z: Snapshot): seq<Message> {
    if z.preStation == Empty && z.ride == Entered then [ReleasePreStation(PRESTATION_STOP)]
    else if z.preStation == Empty then [StopPreStation]
    else if z.preStation == Entering then [ReleasePreStation(PRESTATION_STOP)]
    else if z.preStation == Entered && z.station == Empty then [ReleasePreStation(PRESTATION_GO)]
    else [StopPreStation]
  }

  function RideRunning(z: Snapshot): seq<Message> {
    if z.ride == Empty && z.liftHill == Entered then [ReleaseRide(RIDE_STOP)]
    else if z.ride == Empty then [StopRide]
    else if z.ride == Entering then [ReleaseRide(RIDE_STOP)]
    else if z.ride == Entered && z.preStation == Empty then [ReleaseRide(RIDE_GO)]
    else [StopRide]
  }

  /** In STOP and RETURN_TO_SAFE an ENTERED pre-station gets no command at all. */
  function PreStationHalted(z: Snapshot): seq<Message> {
    if z.preStation == Empty then [StopPreStation]
    else if z.preStation == Entering then [ReleasePreStation(PRESTATION_STOP)]
    else []
  }

  function RideHalted(z: Snapshot): seq<Message> {
    if z.ride == Empty then [StopRide]
    else if z.ride == Entering then [ReleaseRide(RIDE_STOP)]
    else []
  }

  /** In RETURN_TO_SAFE a lift hill with a train on the way up gets no command. */
  function LiftHillSafe(z: Snapshot): seq<Message> {
    if z.liftHill == Empty then [LiftHillStop]
    else if z.liftHill == Entered then [LiftHillStop]
    else []
  }

  function StationSafe(z: Snapshot, releaseGo: byte): Decision {
    if z.station == Empty then Decision([StopStation], releaseGo)
    else if z.station == Entering then Decision([StationForward(128)], releaseGo)
    else Decision([StationForward(0)], 0)
  }

  function Decide(state: byte, z: Snapshot, releaseGo: byte, reply: byte): Decision {
    if state == AUTOMATIC then
      var d := StationAutomatic(z, releaseGo);
      Decision(LiftHillAutomatic(z) + d.sent + PreStationRunning(z) + RideRunning(z), d.releaseGo)
    else if state == MANUAL then
      var d := StationManual(z, releaseGo, reply);
      Decision(LiftHillManual(z, releaseGo) + d.sent + PreStationRunning(z) + RideRunning(z), d.releaseGo)
    else if state == MAINTENANCE then
      Decision([], releaseGo)
    else if state == STOP then
      Decision([LiftHillStop] + [StopStation] + PreStationHalted(z) + RideHalted(z), 0)
    else if state == RETURN_TO_SAFE then
      var d := StationSafe(z, releaseGo);
      Decision(LiftHillSafe(z) + d.sent + PreStationHalted(z) + RideHalted(z), d.releaseGo)
    else
      Decision([], releaseGo)
  }

  // --------------------------------------------------------------------------------- replies

  /** The first bytes of a reply land over what `recvPacket` was given; the rest keep their old value. */
  function Overlay(msg: seq<byte>, reply: seq<byte>): (r: seq<byte>)
    ensures |r| == |msg|
  {
    if |reply| >= |msg| then reply[..|msg|] else reply + msg[|reply|..]
  }

  /** What `updateCoasterState` makes of the bytes that came back; 255 means no answer. */
  function ModeFromReply(reply: seq<byte>): byte {
    var msg := Overlay([REQUEST_BUTTON_STATE, 0, 0, 0, 0], reply);
    if msg[0] == SEND_BUTTON_STATE then msg[1] else 255
  }

  /** What `sendCanSend(canSend)` makes of the bytes that came back. */
  function StartFromReply(canSend: int, reply: seq<byte>): byte {
    var msg := Overlay([SEND_CAN_SEND, ToByte(canSend), 0, 0, 0], reply);
    if reply != [] && msg[0] == RESPOND_CAN_SEND then msg[1] else 0
  }

  function Heard(state: byte, reply: seq<byte>): byte {
    var answer := ModeFromReply(reply);
    if answer != 255 then answer else state
  }

  /**
   * Cutting the firmware's two-byte answer short. The Pi then agrees with the firmware, or keeps
   * what it had when nothing came, exactly when the answer was not cut after its first byte; a
   * one-byte answer is read as AUTOMATIC whatever the firmware said.
   */
  lemma TruncatedModeReply(state: byte, mode: byte, k: nat)
    requires k <= 2 && mode != 255
    ensures k == 1 ==> Heard(state, [SEND_BUTTON_STATE, mode][..k]) == AUTOMATIC
    ensures Heard(state, [SEND_BUTTON_STATE, mode][..k]) == (if k == 0 then state else mode)
            <==> k != 1 || mode == AUTOMATIC
  {
    var answer := [SEND_BUTTON_STATE, mode];
    assert answer[..0] == [];
    assert answer[..1] == [SEND_BUTTON_STATE];
    assert answer[..2] == answer;
  }

  /** A start reply cut after its first byte counts as a press, because the Pi reads back its own request. */
  lemma TruncatedStartReply(pressed: byte, k: nat)
    requires k <= 2
    ensures k == 1 ==> StartFromReply(1, [RESPOND_CAN_SEND, pressed][..k]) == 1
    ensures StartFromReply(1, [RESPOND_CAN_SEND, pressed][..k]) == (if k == 0 then 0 else pressed)
            <==> k != 1 || pressed == 1
  {
    var answer := [RESPOND_CAN_SEND, pressed];
    assert answer[..0] == [];
    assert answer[..1] == [RESPOND_CAN_SEND];
    assert answer[..2] == answer;
  }

  // ------------------------------------------------------------------------- cycles and runs

  /** What a cycle finds: the four zone states it copied, and the bytes answering its two questions. */
  datatype Cycle = Cycle(zones: Snapshot, modeReply: seq<byte>, startReply: seq<byte>)

  /** The mode a cycle acts on. */
  function ModeIn(m: Memory, c: Cycle): byte {
    Heard(m.state, c.modeReply)
  }

  function DecisionIn(m: Memory, c: Cycle): Decision {
    Decide(ModeIn(m, c), c.zones, m.releaseGo, StartFromReply(1, c.startReply))
  }

  function AfterCycle(m: Memory, c: Cycle): Memory {
    Memory(ModeIn(m, c), DecisionIn(m, c).releaseGo)
  }

  function MemoryAfter(m: Memory, cs: seq<Cycle>): Memory {
    if cs == [] then m else AfterCycle(MemoryAfter(m, cs[..|cs| - 1]), cs[|cs| - 1])
  }

  /** Every message a cycle writes, the mode poll first. */
  function SentIn(m: Memory, c: Cycle): seq<Message> {
    [RequestButtonState] + DecisionIn(m, c).sent
  }

  function SentOver(m: Memory, cs: seq<Cycle>): seq<Message> {
    if cs == [] then []
    else SentOver(m, cs[..|cs| - 1]) + SentIn(MemoryAfter(m, cs[..|cs| - 1]), cs[|cs| - 1])
  }

  function ActuatorsAfter(m: Memory, a: Actuators, cs: seq<Cycle>): Actuators {
    if cs == [] then a
    else ObeyAll(SentIn(MemoryAfter(m, cs[..|cs| - 1]), cs[|cs| - 1]), ActuatorsAfter(m, a, cs[..|cs| - 1]))
  }

  lemma {:induction false} ActuatorsObeyTheLog(m: Memory, a: Actuators, cs: seq<Cycle>)
    ensures ActuatorsAfter(m, a, cs) == ObeyAll(SentOver(m, cs), a)
  {
    if cs != [] {
      var n := |cs| - 1;
      ActuatorsObeyTheLog(m, a, cs[..n]);
      ObeyAllAppend(SentOver(m, cs[..n]), SentIn(MemoryAfter(m, cs[..n]), cs[n]), a);
    }
  }

  /** The mode cycle `i` of a run acts on. */
  function ModeAt(m: Memory, cs: seq<Cycle>, i: nat): byte
    requires i < |cs|
  {
    ModeIn(MemoryAfter(m, cs[..i]), cs[i])
  }

  lemma PrefixOfPrefix<T>(s: seq<T>, i: nat, n: nat)
    requires i <= n <= |s|
    ensures s[..n][..i] == s[..i]
  {
  }
}
