/** AtMega/arduinoSerialRead/arduinoSerialRead.ino as it runs: globals, buffer and pins changed in place. */
module Arduinos {
  import opened Coaster
  import opened Firmware
  import opened FirmwareTraces
  import opened FirmwarePins

  class Arduino {
    var returnToSafe: bool
    var recoverEstop: bool
    var newMsg: bool
    var state: byte
    const msg: array<byte>
    /** Bytes that arrive, in order, and have not been read yet; and every byte written back. */
    var rx: seq<byte>
    var tx: seq<byte>
    /** The output pins, and every single write made to them since `setup`. */
    var board: Board
    ghost var writes: seq<Write>

    ghost predicate Valid()
      reads this
    {
      msg.Length == 100 && !newMsg && board == DriveAll(AFTER_SETUP, writes)
    }

    ghost function Latched(): Latches
      reads this
    {
      Latches(returnToSafe, recoverEstop)
    }

    /** `setup`, from whatever the pins were at reset. */
    constructor (reset: Board)
      ensures Valid() && Latched() == POWER_ON && rx == [] && tx == [] && writes == []
      ensures board == AFTER_SETUP && BridgesSafe(board) && fresh(msg)
      ensures board.preStation1 == board.preStation2 == 140 && board.ride1 == board.ride2 == 185
      ensures board.dcStation == board.dcHill == 0
      ensures !board.aForward && !board.aBackward && !board.bForward && !board.bBackward
    {
      returnToSafe, recoverEstop, newMsg := true, false, false;
      state := 0;
      msg := new byte[100](_ => 0);
      rx, tx, writes := [], [], [];
      var b := reset;
      b := Drive(b, Write.AnalogWrite(PreStation1, 140));
      b := Drive(b, Write.AnalogWrite(PreStation2, 140));
      b := Drive(b, Write.AnalogWrite(Ride1, 185));
      b := Drive(b, Write.AnalogWrite(Ride2, 185));
      b := Drive(b, Write.AnalogWrite(DcStation, 0));
      b := Drive(b, Write.AnalogWrite(DcHill, 0));
      b := Drive(b, Write.DigitalWrite(AForward, false));
      b := Drive(b, Write.DigitalWrite(ABackward, false));
      b := Drive(b, Write.DigitalWrite(BForward, false));
      b := Drive(b, Write.DigitalWrite(BBackward, false));
      board := b;
    }

    method AnalogWrite(pin: AnalogPin, value: byte)
      requires board == DriveAll(AFTER_SETUP, writes)
      modifies this`board, this`writes
      ensures board == DriveAll(AFTER_SETUP, writes) && writes == old(writes) + [Write.AnalogWrite(pin, value)]
    {
      board := Drive(board, Write.AnalogWrite(pin, value));
      writes := writes + [Write.AnalogWrite(pin, value)];
      assert writes[..|writes| - 1] == old(writes);
    }

    method DigitalWrite(pin: BridgePin, high: bool)
      requires board == DriveAll(AFTER_SETUP, writes)
      modifies this`board, this`writes
      ensures board == DriveAll(AFTER_SETUP, writes) && writes == old(writes) + [Write.DigitalWrite(pin, high)]
    {
      board := Drive(board, Write.DigitalWrite(pin, high));
      writes := writes + [Write.DigitalWrite(pin, high)];
      assert writes[..|writes| - 1] == old(writes);
    }

    method StationForwardA()
      requires board == DriveAll(AFTER_SETUP, writes)
      modifies this`board, this`writes
      ensures board == DriveAll(AFTER_SETUP, writes) && writes == old(writes) + Firmware.STATION_FORWARD_A
    {
      hide DriveAll, Drive;
      DigitalWrite(AForward, false);
      DigitalWrite(ABackward, false);
      DigitalWrite(AForward, true);
      DigitalWrite(ABackward, false);
    }

    method HillForwardB()
      requires board == DriveAll(AFTER_SETUP, writes)
      modifies this`board, this`writes
      ensures board == DriveAll(AFTER_SETUP, writes) && writes == old(writes) + Firmware.HILL_FORWARD_B
    {
      hide DriveAll, Drive;
      DigitalWrite(BForward, false);
      DigitalWrite(BBackward, false);
      DigitalWrite(BForward, false);
      DigitalWrite(BBackward, true);
    }

    method ReadState(s: Samples)
      modifies this`returnToSafe, this`recoverEstop, this`state
      ensures (state, Latched()) == Firmware.ReadState(old(Latched()), s)
      ensures state == RETURN_TO_SAFE <==> old(returnToSafe) || (!old(recoverEstop) && !s.ignition)
      ensures state == STOP <==> !old(returnToSafe) && (old(recoverEstop) || (s.ignition && s.estop))
      ensures state == MAINTENANCE <==>
              !old(returnToSafe) && !old(recoverEstop) && s.ignition && !s.estop && s.maintenanceSwitch
      ensures state == MANUAL <==>
              && !old(returnToSafe) && !old(recoverEstop) && s.ignition && !s.estop
              && !s.maintenanceSwitch && s.manualSwitch
      ensures state == AUTOMATIC <==>
              && !old(returnToSafe) && !old(recoverEstop) && s.ignition && !s.estop
              && !s.maintenanceSwitch && !s.manualSwitch
      ensures returnToSafe <==> state == RETURN_TO_SAFE
      ensures recoverEstop <==> old(recoverEstop) || state == STOP
    {
      if returnToSafe {
        state := RETURN_TO_SAFE;
      } else if recoverEstop {
        state := STOP;
      } else if !s.ignition {
        returnToSafe := true;
        state := RETURN_TO_SAFE;
      } else if s.estop {
        recoverEstop := true;
        state := STOP;
      } else if s.maintenanceSwitch {
        state := MAINTENANCE;
      } else if s.manualSwitch {
        state := MANUAL;
      } else {
        state := AUTOMATIC;
      }
    }

    method Checkout(s: Samples)
      modifies this`returnToSafe
      ensures Latched() == Firmware.Checkout(old(Latched()), s)
      ensures returnToSafe <==> old(returnToSafe) && !(s.checkoutIgnition && s.acknowledge)
    {
      if !s.checkoutIgnition {
        return;
      }
      if s.acknowledge {
        returnToSafe := false;
      }
    }

    method EmergencyStop(s: Samples)
      modifies this`recoverEstop
      ensures Latched() == Firmware.EmergencyStop(old(Latched()), s)
      ensures recoverEstop <==> old(recoverEstop) && !(!s.estopFirst && !s.estopSecond && s.reset)
    {
      if s.estopFirst {
        return;
      }
      if !s.estopSecond {
        if s.reset {
          recoverEstop := false;
        }
      }
    }

    /** What `msg` and `newMsg` say a look at the serial port brought. */
    ghost predicate Holds(message: Option<seq<byte>>)
      reads this, msg
    {
      && newMsg == message.Some?
      && (message.Some? ==> forall i :: 0 <= i < msg.Length ==> msg[i] == At(message.value, i))
    }

    ghost function MessageIn(c: Collected): Option<seq<byte>> {
      if c.Message? then Some(c.message) else None
    }

    /** One look at the serial port when a byte is there; false when it waits for bytes that never come. */
    method Receive() returns (completed: bool)
      requires msg.Length == 100 && rx != []
      modifies msg, this`rx, this`newMsg
      ensures completed <==> !Collect(old(rx)).Waiting?
      ensures completed ==> rx == Collect(old(rx)).rest && Holds(MessageIn(Collect(old(rx))))
    {
      forall i | 0 <= i < msg.Length {
        msg[i] := 0;
      }
      var first := rx[0];
      rx := rx[1..];
      newMsg := false;
      if first == FRAME_START {
        completed := CollectMessage();
      } else {
        completed := true;
      }
    }

    /** The inner loop of the collector. */
    method CollectMessage() returns (completed: bool)
      requires msg.Length == 100 && !newMsg && forall i :: 0 <= i < msg.Length ==> msg[i] == 0
      modifies msg, this`rx, this`newMsg
      ensures completed <==> !Gather(old(rx), []).Waiting?
      ensures completed ==> rx == Gather(old(rx), []).rest && Holds(MessageIn(Gather(old(rx), [])))
    {
      ghost var arriving := rx;
      var tmp := 0;
      while true
        invariant 0 <= tmp <= 5 && !newMsg
        invariant forall i :: tmp <= i < msg.Length ==> msg[i] == 0
        invariant Gather(arriving, []) == Gather(rx, msg[..tmp])
        decreases |rx|
      {
        if rx == [] {
          return false;
        }
        msg[tmp] := rx[0];
        ghost var before := msg[..tmp];
        assert msg[..tmp + 1] == before + [rx[0]];
        rx := rx[1..];
        if msg[tmp] == FRAME_END {
          newMsg := true;
          assert Gather(arriving, []) == Message(msg[..tmp + 1], rx);
          return true;
        }
        tmp := tmp + 1;
        if tmp > 5 {
          return true;
        }
      }
    }

    /** The reply to a mode poll, in every mode, before the mode's own code runs. */
    method AnswerPoll()
      requires msg.Length == 100
      modifies msg, this`tx, this`newMsg
      ensures newMsg == (old(newMsg) && old(msg[0]) != REQUEST_BUTTON_STATE)
      ensures newMsg ==> msg[..] == old(msg[..])
      ensures tx == old(tx) + if old(newMsg)
              && old(msg[0]) == REQUEST_BUTTON_STATE then [SEND_BUTTON_STATE, state] else []
    {
      if newMsg && msg[0] == REQUEST_BUTTON_STATE {
        msg[0] := SEND_BUTTON_STATE;
        msg[1] := state;
        tx := tx + msg[..2];
        newMsg := false;
      }
    }

    /** The four branches that move actuators. */
    method ActuatorCommand(ghost message: seq<byte>)
      requires msg.Length == 100 && board == DriveAll(AFTER_SETUP, writes)
      requires msg[0] == At(message, 0) && msg[1] == At(message, 1)
      modifies this`board, this`writes
      ensures board == DriveAll(AFTER_SETUP, writes) && writes == old(writes) + ActuatorWrites(message)
    {
      hide DriveAll, Drive;
      if msg[0] == CONTROL_SERVO_1 {
        AnalogWrite(PreStation1, msg[1]);
        AnalogWrite(PreStation2, msg[1]);
      } else if msg[0] == CONTROL_SERVO_2 {
        AnalogWrite(Ride1, msg[1]);
        AnalogWrite(Ride2, msg[1]);
      } else if msg[0] == CONTROL_DC_1 {
        StationForwardA();
        AnalogWrite(DcStation, msg[1]);
      } else if msg[0] == CONTROL_DC_2 {
        HillForwardB();
        AnalogWrite(DcHill, msg[1]);
      }
    }

    /** The message branches of MANUAL. */
    method ManualMessage(s: Samples, ghost message: seq<byte>)
      requires msg.Length == 100 && board == DriveAll(AFTER_SETUP, writes)
      requires msg[0] == At(message, 0) && msg[1] == At(message, 1) && msg[0] != REQUEST_BUTTON_STATE
      modifies msg, this`board, this`writes, this`tx
      ensures board == DriveAll(AFTER_SETUP, writes) && writes == old(writes) + ActuatorWrites(message)
      ensures tx == old(tx) + ReplyOf(MANUAL, Some(message), s)
    {
      hide DriveAll, Drive;
      if msg[0] == SEND_CAN_SEND {
        msg[0] := RESPOND_CAN_SEND;
        if msg[1] == 1 {
          if s.startButton {
            msg[1] := 1;
          } else {
            msg[1] := 0;
          }
        } else {
          msg[1] := 0;
        }
        tx := tx + msg[..2];
        assert msg[..2] == [msg[0], msg[1]];
      } else {
        ActuatorCommand(message);
      }
    }

    method RideStop(s: Samples)
      requires board == DriveAll(AFTER_SETUP, writes)
      modifies this`board, this`writes
      ensures board == DriveAll(AFTER_SETUP, writes) && writes == old(writes) + RideStopWrites(s)
    {
      hide DriveAll, Drive;
      if s.rideStop {
        AnalogWrite(DcStation, 0);
        AnalogWrite(DcHill, 0);
      }
    }

    method LiftStop(s: Samples)
      requires board == DriveAll(AFTER_SETUP, writes)
      modifies this`board, this`writes
      ensures board == DriveAll(AFTER_SETUP, writes) && writes == old(writes) + LiftStopWrites(s)
    {
      hide DriveAll, Drive;
      if s.liftStop {
        if s.stationSwitchStop {
          AnalogWrite(DcStation, 0);
        } else if s.hillSwitchStop {
          AnalogWrite(DcHill, 0);
        }
      }
    }

    method LiftStart(s: Samples)
      requires board == DriveAll(AFTER_SETUP, writes)
      modifies this`board, this`writes
      ensures board == DriveAll(AFTER_SETUP, writes) && writes == old(writes) + LiftStartWrites(s)
    {
      hide DriveAll, Drive;
      if s.liftStart {
        if s.stationSwitchStart {
          StationForwardA();
          AnalogWrite(DcStation, 255);
        } else if s.hillSwitchStart {
          HillForwardB();
          AnalogWrite(DcHill, 255);
        }
      }
    }

    method Maintenance(s: Samples)
      requires board == DriveAll(AFTER_SETUP, writes)
      modifies this`board, this`writes
      ensures board == DriveAll(AFTER_SETUP, writes) && writes == old(writes) + MaintenanceWrites(s)
      ensures Maintained(old(board), board, s)
    {
      hide DriveAll, Drive, RideStopWrites, LiftStopWrites, LiftStartWrites, Maintained;
      AnalogWrite(Ride1, 250);
      AnalogWrite(Ride2, 250);
      AnalogWrite(PreStation1, 180);
      AnalogWrite(PreStation2, 180);
      RideStop(s);
      LiftStop(s);
      LiftStart(s);
      DriveAllAppend(AFTER_SETUP, old(writes), MaintenanceWrites(s));
      MaintenanceDrives(old(board), s);
    }

    /** The code a mode jumps to, on a message that is not a mode poll (or none). */
    method Handle(s: Samples, ghost message: Option<seq<byte>>)
      requires msg.Length == 100 && board == DriveAll(AFTER_SETUP, writes)
      requires newMsg == message.Some? && state <= RETURN_TO_SAFE
      requires newMsg ==> msg[0] == At(message.value, 0) && msg[1] == At(message.value, 1)
      requires newMsg ==> msg[0] != REQUEST_BUTTON_STATE
      modifies msg, this
      ensures Valid() && state == old(state) && rx == old(rx)
      ensures Latched() == AfterMode(old(Latched()), state, s)
      ensures writes == old(writes) + WritesOf(state, message, s)
      ensures tx == old(tx) + ReplyOf(state, message, s)
    {
      hide DriveAll, Drive, ActuatorWrites, MaintenanceWrites, Maintained;
      if state == MANUAL {
        if newMsg {
          ManualMessage(s, message.value);
        }
        newMsg := false;
      } else if state == MAINTENANCE {
        newMsg := false;
        Maintenance(s);
      } else {
        if newMsg {
          ActuatorCommand(message.value);
        }
        newMsg := false;
        Recover(s);
      }
    }

    /** What RETURN_TO_SAFE and STOP do once the message has been dealt with. */
    method Recover(s: Samples)
      requires state != MANUAL && state != MAINTENANCE
      modifies this`returnToSafe, this`recoverEstop
      ensures Latched() == AfterMode(old(Latched()), state, s)
    {
      if state == RETURN_TO_SAFE {
        Checkout(s);
        if s.estopInSafe {
          recoverEstop := true;
        }
      } else if state == STOP {
        EmergencyStop(s);
        if !s.ignitionInStop {
          returnToSafe := true;
        }
      }
    }

    /** One iteration of the loop; false when it hangs inside a frame that never ends. */
    method Loop(slot: Slot) returns (completed: bool)
      requires Valid()
      modifies this, msg
      ensures completed <==> Iterate(old(Latched()), old(rx), slot).Done?
      ensures completed ==>
                match Iterate(old(Latched()), old(rx), slot)
                case Done(latches, mode, message, ws, reply, rest) =>
                  && Valid() && Latched() == latches && state == mode && rx == rest
                  && writes == old(writes) + ws && tx == old(tx) + reply
      ensures completed && state == MAINTENANCE ==> Maintained(old(board), board, slot.samples)
      ensures old(MotorsReady(board)) ==> MotorsReady(board)
      ensures !completed ==> board == old(board) && writes == old(writes) && tx == old(tx)
    {
      hide DriveAll, Drive, Gather, WritesOf, Maintained, MotorsReady;
      ghost var before := Latched();
      ghost var message: Option<seq<byte>> := None;
      ReadState(slot.samples);
      if slot.available && rx != [] {
        message := MessageIn(Collect(rx));
        completed := Receive();
        if !completed {
          return;
        }
      }
      completed := true;
      Dispatch(slot.samples, message);
      assert Latched() == Tick(before, slot.samples);
      AsAdvance(old(Latched()), old(rx), slot, old(writes));
    }

    /**
     * The endless loop, for as many iterations as `slots` has (fewer if one hangs). However it goes,
     * every single pin write since `setup` has left both motor bridges safe, and no motor ends with
     * power and its bridge disabled.
     */
    method Run(slots: seq<Slot>) returns (hung: bool)
      requires Valid() && forall k :: 0 <= k < |writes| ==> KeepsDirection(writes[k])
      modifies this, msg
      ensures var q := RunFirmware(Progress(old(Latched()), old(rx), old(board), old(tx), false), slots);
              && hung == q.stuck && board == q.board && tx == q.replies
              && (!hung ==> Valid() && Latched() == q.latches && rx == q.rx)
      ensures SafeThroughout(AFTER_SETUP, writes)
      ensures old(MotorsReady(board)) ==> MotorsReady(board)
    {
      hide DriveAll, Drive, Iterate, KeepsDirection, MotorsReady;
      ghost var goal := RunFirmware(Progress(Latched(), rx, board, tx, false), slots);
      var i := 0;
      while i < |slots|
        invariant 0 <= i <= |slots| && Valid()
        invariant goal == RunFirmware(Progress(Latched(), rx, board, tx, false), slots[i..])
        invariant forall k :: 0 <= k < |writes| ==> KeepsDirection(writes[k])
        invariant old(MotorsReady(board)) ==> MotorsReady(board)
      {
        ghost var p := Progress(Latched(), rx, board, tx, false);
        ghost var was := writes;
        assert slots[i..][1..] == slots[i + 1..] && slots[i..][0] == slots[i];
        var completed := Loop(slots[i]);
        ghost var o := Iterate(p.latches, p.rx, slots[i]);
        if !completed {
          assert Advance(p, slots[i]) == p.(stuck := true);
          StuckStays(p.(stuck := true), slots[i + 1..]);
          SafeSoFar();
          return true;
        }
        IterateWrites(p.latches, p.rx, slots[i]);
        DriveAllAppend(AFTER_SETUP, was, o.writes);
        i := i + 1;
      }
      SafeSoFar();
      return false;
    }

    lemma SafeSoFar()
      requires forall k :: 0 <= k < |writes| ==> KeepsDirection(writes[k])
      ensures SafeThroughout(AFTER_SETUP, writes)
    {
      SafeThroughoutIf(AFTER_SETUP, writes);
    }

    /** Everything an iteration does once the serial port has been looked at. */
    method Dispatch(s: Samples, ghost message: Option<seq<byte>>)
      requires msg.Length == 100 && board == DriveAll(AFTER_SETUP, writes) && state <= RETURN_TO_SAFE
      requires Holds(message)
      modifies this, msg
      ensures Valid() && state == old(state) && rx == old(rx)
      ensures Latched() == AfterMode(old(Latched()), state, s)
      ensures writes == old(writes) + WritesOf(state, message, s)
      ensures tx == old(tx) + ReplyOf(state, message, s)
    {
      hide DriveAll, Drive, ActuatorWrites, MaintenanceWrites;
      AnswerPoll();
      if newMsg {
        assert msg[..][0] == msg[0] && msg[..][1] == msg[1];
        Handle(s, message);
      } else {
        Handle(s, None);
      }
    }
  }

  lemma IterateWrites(l: Latches, rx: seq<byte>, slot: Slot)
    requires Iterate(l, rx, slot).Done?
    ensures forall k :: 0 <= k < |Iterate(l, rx, slot).writes| ==> KeepsDirection(Iterate(l, rx, slot).writes[k])
  {
    hide WritesOf, KeepsDirection, ReplyOf, Collect;
    var o := Iterate(l, rx, slot);
    WritesKeepDirection(o.mode, o.message, slot.samples);
  }

  /** What an iteration leaves on the pins, from the writes it adds. */
  lemma AsAdvance(l: Latches, rx: seq<byte>, slot: Slot, before: seq<Write>)
    requires Iterate(l, rx, slot).Done?
    ensures var o, b := Iterate(l, rx, slot), DriveAll(AFTER_SETUP, before);
            && (o.mode == MAINTENANCE ==> Maintained(b, DriveAll(AFTER_SETUP, before + o.writes), slot.samples))
            && (MotorsReady(b) ==> MotorsReady(DriveAll(AFTER_SETUP, before + o.writes)))
  {
    var o, b := Iterate(l, rx, slot), DriveAll(AFTER_SETUP, before);
    var p := Progress(l, rx, b, [], false);
    hide DriveAll, WritesOf, ReplyOf, Collect, Maintained, MotorsReady, ModeOf, Tick;
    DriveAllAppend(AFTER_SETUP, before, o.writes);
    if o.mode == MAINTENANCE {
      MaintenancePins(p, slot);
    }
    if MotorsReady(b) {
      OneStaysReady(p, slot);
    }
  }

  lemma {:induction false} StuckStays(p: Progress, slots: seq<Slot>)
    requires p.stuck
    ensures RunFirmware(p, slots) == p
    decreases slots
  {
    if slots != [] {
      StuckStays(p, slots[1..]);
    }
  }
}
