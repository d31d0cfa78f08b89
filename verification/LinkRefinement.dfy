/** The two processors together: what the Pi puts on the wire is what the actuators end up doing. */
module LinkRefinement {
  import opened Coaster
  import opened Interlock
  import opened InterlockRuns
  import opened SerialLink
  import opened Firmware
  import opened FirmwareTraces
  import opened FirmwarePins

  /** The pins realise these actuator values, both servos of a pair alike. */
  predicate Realises(b: Board, a: Actuators) {
    && b.preStation1 == b.preStation2 == a.preStation
    && b.ride1 == b.ride2 == a.ride
    && b.dcStation == a.station && b.dcHill == a.liftHill
  }

  /** What a message does to the ten pins. */
  function Enact(m: Message, b: Board): Board {
    match Target(m)
    case None => b
    case Some((Station, v)) => b.(aForward := true, aBackward := false, dcStation := v)
    case Some((LiftHill, v)) => b.(bForward := false, bBackward := true, dcHill := v)
    case Some((Ride, v)) => b.(ride1 := v, ride2 := v)
    case Some((PreStation, v)) => b.(preStation1 := v, preStation2 := v)
  }

  function EnactAll(ms: seq<Message>, b: Board): Board {
    if ms == [] then b else EnactAll(ms[1..], Enact(ms[0], b))
  }

  lemma EnactRealises(m: Message, b: Board, a: Actuators)
    requires Realises(b, a)
    ensures Realises(Enact(m, b), Obey(m, a))
  {
  }

  lemma {:induction false} EnactAllRealises(ms: seq<Message>, b: Board, a: Actuators)
    requires Realises(b, a)
    ensures Realises(EnactAll(ms, b), ObeyAll(ms, a))
  {
    hide Realises, Enact, Obey;
    if ms != [] {
      EnactRealises(ms[0], b, a);
      EnactAllRealises(ms[1..], Enact(ms[0], b), Obey(ms[0], a));
    }
  }

  predicate SomeAddress(ms: seq<Message>, z: Zone) {
    exists i :: 0 <= i < |ms| && Addresses(ms[i], z)
  }

  lemma SomeAddressFirst(ms: seq<Message>, z: Zone)
    requires ms != []
    ensures SomeAddress(ms, z) <==> Addresses(ms[0], z) || SomeAddress(ms[1..], z)
  {
    hide Addresses;
    if i :| 0 <= i < |ms[1..]| && Addresses(ms[1..][i], z) {
      assert Addresses(ms[i + 1], z);
    }
    if i :| 0 <= i < |ms| && Addresses(ms[i], z) {
      assert i > 0 ==> Addresses(ms[1..][i - 1], z);
    }
  }

  /** A motor's bridge is turned forward by its first command, whatever the power, and by nothing else. */
  lemma {:induction false} BridgesFollowCommands(ms: seq<Message>, b: Board)
    ensures var e := EnactAll(ms, b);
            && (e.aForward <==> b.aForward || SomeAddress(ms, Station))
            && (e.aBackward <==> b.aBackward && !SomeAddress(ms, Station))
            && (e.bBackward <==> b.bBackward || SomeAddress(ms, LiftHill))
            && (e.bForward <==> b.bForward && !SomeAddress(ms, LiftHill))
  {
    if ms != [] {
      SomeAddressFirst(ms, Station);
      SomeAddressFirst(ms, LiftHill);
      BridgesFollowCommands(ms[1..], Enact(ms[0], b));
      hide SomeAddress;
    }
  }

  /** The collected bytes carry message `m`. */
  predicate CarriesMessage(collected: seq<byte>, m: Message) {
    At(collected, 0) == Payload(m)[0] && (|Payload(m)| >= 2 ==> At(collected, 1) == Payload(m)[1])
  }

  /**
   * Every message gets through in one look, whatever value it carries and whatever follows it. A
   * value equal to the terminator ends the frame early, but the value is then already stored; the
   * bytes left over cannot start a frame.
   */
  lemma MessageGetsThrough(m: Message, tail: seq<byte>)
    ensures var c := Collect(Encode(m) + tail);
            && c.Message? && CarriesMessage(c.message, m) && (exists left :: PastFrame(c.rest, left, tail))
            && (FRAME_END !in Payload(m) ==> c.message == Payload(m) + [FRAME_END] && c.rest == tail)
  {
    var p := Payload(m);
    var rx := Encode(m) + tail;
    if |p| >= 2 && p[1] == FRAME_END {
      var left := p[2..] + [FRAME_END];
      assert rx[1..] == p[..1] + [FRAME_END] + (left + tail);
      GatherPayload(p[..1], left + tail, []);
      assert PastFrame(Collect(rx).rest, left, tail);
    } else {
      assert rx == Frame(p) + tail;
      CollectFrame(p, tail);
      assert PastFrame(Collect(rx).rest, [], tail);
    }
  }

  /** Dispatching the collected bytes moves the pins exactly as the message intends. */
  lemma DispatchEnacts(b: Board, collected: seq<byte>, m: Message, mode: byte, s: Samples)
    requires CarriesMessage(collected, m) && mode != MAINTENANCE
    ensures DriveAll(b, WritesOf(mode, Some(collected), s)) == Enact(m, b)
  {
    var v := At(collected, 1);
    DriveNone(b);
    ServoPairs(b, v);
    MotorDrives(b, v);
    hide DriveAll, MaintenanceWrites, At;
  }

  /** No iteration of the run is in MAINTENANCE. */
  ghost predicate NoMaintenance(l: Latches, slots: seq<Slot>)
    decreases slots
  {
    slots == [] || (ModeOf(l, slots[0].samples) != MAINTENANCE && NoMaintenance(Tick(l, slots[0].samples), slots[1..]))
  }

  /** The bytes waiting are leftovers that cannot start a frame, then the encoding of `ms`. */
  ghost predicate Pending(rx: seq<byte>, ms: seq<Message>) {
    exists left :: PastFrame(rx, left, EncodeAll(ms))
  }

  lemma {:induction false} NothingPending(ms: seq<Message>)
    ensures Pending([], ms) <==> ms == []
  {
    if ms == [] {
      assert PastFrame([], [], EncodeAll(ms));
    }
  }

  /** An iteration that completes no frame moves nothing. */
  lemma NoMessage(p: Progress, slot: Slot)
    requires !p.stuck && ModeOf(p.latches, slot.samples) != MAINTENANCE
    requires slot.available && p.rx != [] ==> Collect(p.rx).Skipped?
    ensures var q := Advance(p, slot);
            && !q.stuck && q.latches == Tick(p.latches, slot.samples) && q.board == p.board
            && q.rx == if slot.available && p.rx != [] then Collect(p.rx).rest else p.rx
  {
    hide Collect, ModeOf, Tick, Drive;
  }

  /** An iteration that completes the frame of a message obeys it. */
  lemma OneMessage(p: Progress, slot: Slot, m: Message)
    requires !p.stuck && ModeOf(p.latches, slot.samples) != MAINTENANCE
    requires slot.available && p.rx != [] && Collect(p.rx).Message? && CarriesMessage(Collect(p.rx).message, m)
    ensures var q := Advance(p, slot);
            && !q.stuck && q.latches == Tick(p.latches, slot.samples) && q.rx == Collect(p.rx).rest
            && q.board == Enact(m, p.board)
  {
    DispatchEnacts(p.board, Collect(p.rx).message, m, ModeOf(p.latches, slot.samples), slot.samples);
    hide Collect, ModeOf, Tick, WritesOf, DriveAll, Enact, CarriesMessage, ReplyOf;
  }

  /** One iteration handles the next message or none at all, and never hangs. */
  lemma OneIteration(p: Progress, slot: Slot, ms: seq<Message>)
    requires !p.stuck && Pending(p.rx, ms) && ModeOf(p.latches, slot.samples) != MAINTENANCE
    ensures var q := Advance(p, slot);
            && !q.stuck && q.latches == Tick(p.latches, slot.samples)
            && ((Pending(q.rx, ms) && q.board == p.board)
                || (ms != [] && Pending(q.rx, ms[1..]) && q.board == Enact(ms[0], p.board)))
  {
    var left :| PastFrame(p.rx, left, EncodeAll(ms));
    hide Collect, ModeOf, Tick, Encode, Enact, Advance, CarriesMessage;
    if slot.available && p.rx != [] {
      if left != [] {
        JunkIsSkipped(left, EncodeAll(ms));
        assert PastFrame(p.rx[1..], left[1..], EncodeAll(ms));
        NoMessage(p, slot);
      } else {
        assert p.rx == Encode(ms[0]) + EncodeAll(ms[1..]);
        MessageGetsThrough(ms[0], EncodeAll(ms[1..]));
        OneMessage(p, slot, ms[0]);
      }
    } else {
      NoMessage(p, slot);
    }
  }

  lemma JunkIsSkipped(left: seq<byte>, tail: seq<byte>)
    requires left != [] && FRAME_START !in left
    ensures Collect(left + tail) == Skipped(left[1..] + tail)
  {
    assert (left + tail)[1..] == left[1..] + tail;
  }

  /** A run of iterations has enacted the first `k` of the messages and the rest are waiting. */
  ghost predicate EnactedFirst(q: Progress, ms: seq<Message>, b: Board, k: nat) {
    k <= |ms| && Pending(q.rx, ms[k..]) && q.board == EnactAll(ms[..k], b)
  }

  lemma EnactedOneMore(q: Progress, ms: seq<Message>, b: Board, k: nat)
    requires ms != [] && EnactedFirst(q, ms[1..], Enact(ms[0], b), k)
    ensures EnactedFirst(q, ms, b, k + 1)
  {
    assert ms[1..][k..] == ms[k + 1..];
    assert ms[..k + 1][1..] == ms[1..][..k] && ms[..k + 1][0] == ms[0];
    hide Pending, Enact;
  }

  /**
   * With any timing of arrivals, and any changes among the four modes that obey commands, the
   * firmware obeys the messages on the wire in order: after any number of iterations all ten pins
   * stand where some first few of them put them and the rest are still waiting. It never hangs.
   */
  lemma {:induction false} EnactsInOrder(p: Progress, slots: seq<Slot>, ms: seq<Message>)
    requires !p.stuck && Pending(p.rx, ms) && NoMaintenance(p.latches, slots)
    ensures !RunFirmware(p, slots).stuck
    ensures exists k :: EnactedFirst(RunFirmware(p, slots), ms, p.board, k)
    decreases slots
  {
    if slots == [] {
      assert ms[0..] == ms && ms[..0] == [];
      assert EnactedFirst(p, ms, p.board, 0);
    } else {
      var q := Advance(p, slots[0]);
      OneIteration(p, slots[0], ms);
      hide Advance, Pending, Enact, EnactedFirst;
      if Pending(q.rx, ms) && q.board == p.board {
        EnactsInOrder(q, slots[1..], ms);
      } else {
        EnactsInOrder(q, slots[1..], ms[1..]);
        var k: nat :| EnactedFirst(RunFirmware(q, slots[1..]), ms[1..], Enact(ms[0], p.board), k);
        EnactedOneMore(RunFirmware(p, slots), ms, p.board, k);
      }
    }
  }

  /** The same of the actuators: how far a run of iterations has got with the messages on the wire. */
  ghost predicate Reached(q: Progress, ms: seq<Message>, a: Actuators, k: nat) {
    k <= |ms| && Pending(q.rx, ms[k..]) && Realises(q.board, ObeyAll(ms[..k], a))
  }

  lemma ObeysInOrder(p: Progress, slots: seq<Slot>, ms: seq<Message>, a: Actuators)
    requires !p.stuck && Pending(p.rx, ms) && Realises(p.board, a) && NoMaintenance(p.latches, slots)
    ensures !RunFirmware(p, slots).stuck
    ensures exists k :: Reached(RunFirmware(p, slots), ms, a, k)
  {
    hide Pending, Realises, RunFirmware, EnactAll, ObeyAll, NoMaintenance;
    EnactsInOrder(p, slots, ms);
    var k: nat :| EnactedFirst(RunFirmware(p, slots), ms, p.board, k);
    EnactAllRealises(ms[..k], p.board, a);
    assert Reached(RunFirmware(p, slots), ms, a, k);
  }

  /** Once every byte has been read, every pin stands exactly where the messages put it. */
  lemma PinsExactly(p: Progress, slots: seq<Slot>, ms: seq<Message>)
    requires !p.stuck && p.rx == EncodeAll(ms) && NoMaintenance(p.latches, slots)
    requires RunFirmware(p, slots).rx == []
    ensures RunFirmware(p, slots).board == EnactAll(ms, p.board)
  {
    assert PastFrame(p.rx, [], EncodeAll(ms));
    EnactsInOrder(p, slots, ms);
    var k: nat :| EnactedFirst(RunFirmware(p, slots), ms, p.board, k);
    hide EnactAll, RunFirmware, Pending;
    NothingPending(ms[k..]);
    assert ms[..k] == ms;
  }

  /**
   * End to end: once every byte of any list of messages has been read, each actuator stands at the
   * value of its last command, or where it was if it got none; a motor's bridge is enabled forward if
   * it got any command, and as it was otherwise. So no motor has power without its bridge, unless
   * it did before.
   */
  lemma CommandRefinement(p: Progress, slots: seq<Slot>, ms: seq<Message>, a: Actuators)
    requires !p.stuck && p.rx == EncodeAll(ms) && Realises(p.board, a) && NoMaintenance(p.latches, slots)
    requires RunFirmware(p, slots).rx == []
    ensures Realises(RunFirmware(p, slots).board, ObeyAll(ms, a))
    ensures forall z: Zone :: ObeyAll(ms, a).Get(z) == match LastFor(ms, z) case Some(v) => v case None => a.Get(z)
    ensures var b, e := p.board, RunFirmware(p, slots).board;
            && (e.aForward <==> b.aForward || SomeAddress(ms, Station))
            && (e.aBackward <==> b.aBackward && !SomeAddress(ms, Station))
            && (e.bBackward <==> b.bBackward || SomeAddress(ms, LiftHill))
            && (e.bForward <==> b.bForward && !SomeAddress(ms, LiftHill))
            && (MotorsReady(b) ==> MotorsReady(e))
  {
    PinsExactly(p, slots, ms);
    EnactAllRealises(ms, p.board, a);
    BridgesFollowCommands(ms, p.board);
    hide ObeyAll, EnactAll, RunFirmware, LastFor, SomeAddress, MotorsReady;
    if MotorsReady(p.board) {
      PoweredMotorsTurn(p, slots);
    }
    forall z: Zone
      ensures ObeyAll(ms, a).Get(z) == match LastFor(ms, z) case Some(v) => v case None => a.Get(z)
    {
      LastCommandWins(ms, a, z);
    }
  }

  /** How many iterations of the run find a byte to look at, should one be waiting. */
  function Looks(slots: seq<Slot>): nat {
    if slots == [] then 0 else (if slots[0].available then 1 else 0) + Looks(slots[1..])
  }

  /** And every byte does get read: each look takes at least one, and none ever hangs. */
  lemma {:induction false} EverythingIsRead(p: Progress, slots: seq<Slot>, ms: seq<Message>)
    requires !p.stuck && Pending(p.rx, ms) && NoMaintenance(p.latches, slots)
    requires |p.rx| <= Looks(slots)
    ensures RunFirmware(p, slots).rx == []
    decreases slots
  {
    if slots != [] {
      var q := Advance(p, slots[0]);
      OneIteration(p, slots[0], ms);
      if p.rx != [] {
        CollectShrinks(p.rx);
      }
      assert |q.rx| <= Looks(slots[1..]) by {
        hide Collect, Pending, Enact, ModeOf, Tick, NoMaintenance, WritesOf, ReplyOf;
      }
      hide Advance, Pending, Enact;
      EverythingIsRead(q, slots[1..], if Pending(q.rx, ms) then ms else ms[1..]);
    }
  }

  // ------------------------------------------------------------------------- the way back

  /** A mode poll is answered, whole, with the mode the firmware is in; the Pi then acts on that mode. */
  lemma PollRoundTrip(l: Latches, slot: Slot, tail: seq<byte>, state: byte)
    requires slot.available
    ensures var o := Iterate(l, Encode(RequestButtonState) + tail, slot);
            o.Done? && WholeModeReply(o.reply) && o.reply != [] && Heard(state, o.reply) == ModeOf(l, slot.samples)
  {
    MessageGetsThrough(RequestButtonState, tail);
    hide Collect, Tick;
  }

  /** A start request is granted exactly when the firmware is in MANUAL with the start button pressed. */
  lemma StartRoundTrip(l: Latches, slot: Slot, tail: seq<byte>)
    requires slot.available
    ensures var o := Iterate(l, Encode(CanSend(1)) + tail, slot);
            o.Done? && (StartFromReply(1, o.reply) != 0
                <==> ModeOf(l, slot.samples) == MANUAL && slot.samples.startButton)
  {
    MessageGetsThrough(CanSend(1), tail);
    hide Collect, Tick, ModeOf;
  }

  // ------------------------------------------------------------------- whole runs, on the pins

  /** The pins after the firmware has read everything a run of control cycles sent it. */
  lemma PinsAfterCycles(m: Memory, a: Actuators, cs: seq<Cycle>, p: Progress, slots: seq<Slot>)
    requires !p.stuck && p.rx == EncodeAll(SentOver(m, cs)) && Realises(p.board, a) && NoMaintenance(p.latches, slots)
    requires RunFirmware(p, slots).rx == []
    ensures Realises(RunFirmware(p, slots).board, ActuatorsAfter(m, a, cs))
  {
    hide *;
    ActuatorsObeyTheLog(m, a, cs);
    CommandRefinement(p, slots, SentOver(m, cs), a);
  }

  /**
   * Once a poll was answered STOP, both motor powers are 0 after that cycle and each later one
   * that hears STOP or nothing.
   */
  lemma StopStopsTheMotors(m: Memory, a: Actuators, cs: seq<Cycle>, i: nat, p: Progress, slots: seq<Slot>)
    requires i < |cs| && cs[i].modeReply == [SEND_BUTTON_STATE, STOP]
    requires forall j :: i < j < |cs| ==> StopOrSilence(cs[j].modeReply)
    requires !p.stuck && p.rx == EncodeAll(SentOver(m, cs)) && Realises(p.board, a) && NoMaintenance(p.latches, slots)
    requires RunFirmware(p, slots).rx == []
    ensures RunFirmware(p, slots).board.dcStation == 0 && RunFirmware(p, slots).board.dcHill == 0
  {
    PinsAfterCycles(m, a, cs, p, slots);
    StopResponse(m, a, cs, i);
    hide RunFirmware, ActuatorsAfter, SentOver, EncodeAll, MemoryAfter, NoMaintenance;
  }

  /** From `setup`, no run leaves both gravity brakes released on the pins. */
  lemma BrakesExcludeOnThePins(cs: seq<Cycle>, slots: seq<Slot>)
    requires NoMaintenance(POWER_ON, slots)
    requires RunFirmware(Progress(POWER_ON, EncodeAll(SentOver(BOOT, cs)), AFTER_SETUP, [], false), slots).rx == []
    ensures var b := RunFirmware(Progress(POWER_ON, EncodeAll(SentOver(BOOT, cs)), AFTER_SETUP, [], false),
            slots).board;
            !(b.ride1 == RIDE_GO && b.preStation1 == PRESTATION_GO) && b.ride1 == b.ride2
                && b.preStation1 == b.preStation2
  {
    var a := PerZone(0 as byte, 0 as byte, RIDE_STOP, PRESTATION_STOP);
    var p := Progress(POWER_ON, EncodeAll(SentOver(BOOT, cs)), AFTER_SETUP, [], false);
    assert Realises(p.board, a) && ServosClosed(a);
    PinsAfterCycles(BOOT, a, cs, p, slots);
    BrakesExclude(BOOT, a, cs);
    hide RunFirmware, ActuatorsAfter, SentOver, EncodeAll, MemoryAfter, NoMaintenance;
  }
}
