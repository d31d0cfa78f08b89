/** Pi/serial.cpp: how the Pi puts messages on the wire and reads the two-byte answers. */
module SerialLink {
  import opened Coaster
  import opened Interlock

  function Payload(m: Message): (p: seq<byte>)
    ensures 1 <= |p| <= 3
  {
    match m
    case RequestButtonState => [REQUEST_BUTTON_STATE]
    case CanSend(canSend) => [SEND_CAN_SEND, ToByte(canSend)]
    case LiftHillForward(power) => [CONTROL_DC_2, ToByte(power), FORWARD]
    case LiftHillStop => [CONTROL_DC_2, 0]
    case StationForward(power) => [CONTROL_DC_1, ToByte(power), FORWARD]
    case StopStation => [CONTROL_DC_1, 0]
    case ReleasePreStation(position) => [CONTROL_SERVO_1, ToByte(position)]
    case StopPreStation => [CONTROL_SERVO_1, PRESTATION_STOP]
    case ReleaseRide(position) => [CONTROL_SERVO_2, ToByte(position)]
    case StopRide => [CONTROL_SERVO_2, RIDE_STOP]
  }

  /**
   * A message carries a direction exactly if it drives a motor, and then it is always FORWARD: nothing
   * the Pi sends asks a motor to run backward.
   */
  lemma OnlyForward(m: Message)
    ensures |Payload(m)| >= 3 <==> m.LiftHillForward? || m.StationForward?
    ensures |Payload(m)| >= 3 ==> |Payload(m)| == 3 && Payload(m)[2] == 1
  {
  }

  function Encode(m: Message): seq<byte> {
    Frame(Payload(m))
  }

  function EncodeAll(ms: seq<Message>): seq<byte> {
    if ms == [] then [] else Encode(ms[0]) + EncodeAll(ms[1..])
  }

  lemma {:induction false} EncodeAllAppend(ms: seq<Message>, ns: seq<Message>)
    ensures EncodeAll(ms + ns) == EncodeAll(ms) + EncodeAll(ns)
  {
    hide Encode;
    if ms == [] {
      assert ms + ns == ns;
    } else {
      assert (ms + ns)[1..] == ms[1..] + ns;
      EncodeAllAppend(ms[1..], ns);
    }
  }

  lemma EncodeAllOne(ms: seq<Message>, m: Message)
    ensures EncodeAll(ms + [m]) == EncodeAll(ms) + Encode(m)
  {
    hide Encode;
    EncodeAllAppend(ms, [m]);
    assert [m][1..] == [];
    assert EncodeAll([m]) == Encode(m) + EncodeAll([]);
  }

  class Serial {
    /** Every byte written to the device so far. */
    var wire: seq<byte>
    ghost var sent: seq<Message>

    ghost predicate Valid()
      reads this
    {
      wire == EncodeAll(sent)
    }

    constructor ()
      ensures Valid() && sent == []
    {
      wire := [];
      sent := [];
    }

    method SendPacket(msg: array<byte>, size: nat)
      requires size <= msg.Length
      modifies this`wire
      ensures wire == old(wire) + Frame(msg[..size])
    {
      var start := FRAME_START;
      var stop := FRAME_END;
      wire := wire + [start];
      wire := wire + msg[..size];
      wire := wire + [stop];
      assert wire == old(wire) + ([start] + msg[..size] + [stop]);
    }

    /** `reply` is whatever arrived before the time-out; at most `size` bytes of it are taken. */
    method RecvPacket(msg: array<byte>, size: nat, reply: seq<byte>) returns (sizeRead: nat)
      requires size == msg.Length
      modifies msg
      ensures msg[..] == Overlay(old(msg[..]), reply)
      ensures sizeRead == if |reply| < size then |reply| else size
    {
      sizeRead := if |reply| < size then |reply| else size;
      forall i | 0 <= i < sizeRead {
        msg[i] := reply[i];
      }
    }

    /** Records that `m` has just been written. */
    ghost method Log(m: Message)
      requires wire == EncodeAll(sent) + Encode(m)
      modifies this`sent
      ensures Valid() && sent == old(sent) + [m]
    {
      EncodeAllOne(sent, m);
      sent := sent + [m];
    }

    method UpdateCoasterState(reply: seq<byte>) returns (mode: byte)
      requires Valid()
      modifies this
      ensures Valid() && sent == old(sent) + [RequestButtonState]
      ensures mode == ModeFromReply(reply)
      ensures mode == if reply == [] || reply[0] != SEND_BUTTON_STATE then 255
                      else if |reply| == 1 then 0 else reply[1]
    {
      var msg := new byte[5](_ => 0);
      msg[0] := REQUEST_BUTTON_STATE;
      SendPacket(msg, 1);
      assert msg[..1] == Payload(RequestButtonState);
      Log(RequestButtonState);
      assert msg[..] == [REQUEST_BUTTON_STATE, 0, 0, 0, 0];
      var received := RecvPacket(msg, 5, reply);
      assert msg[0] == msg[..][0] && msg[1] == msg[..][1];
      if msg[0] == SEND_BUTTON_STATE {
        return msg[1];
      }
      return 255;
    }

    method SendCanSend(canSend: int, reply: seq<byte>) returns (go: byte)
      requires Valid()
      modifies this
      ensures Valid() && sent == old(sent) + [CanSend(canSend)]
      ensures go == StartFromReply(canSend, reply)
      ensures go == if reply == [] || reply[0] != RESPOND_CAN_SEND then 0
                    else if |reply| == 1 then ToByte(canSend) else reply[1]
    {
      var msg := new byte[5](_ => 0);
      msg[0] := SEND_CAN_SEND;
      msg[1] := ToByte(canSend);
      SendPacket(msg, 2);
      assert msg[..2] == Payload(CanSend(canSend));
      Log(CanSend(canSend));
      assert msg[..] == [SEND_CAN_SEND, ToByte(canSend), 0, 0, 0];
      var received := RecvPacket(msg, 5, reply);
      assert msg[0] == msg[..][0] && msg[1] == msg[..][1];
      if received != 0 && msg[0] == RESPOND_CAN_SEND {
        return msg[1];
      }
      return 0;
    }

    method LiftHillForward(pow: int)
      requires Valid()
      modifies this
      ensures Valid() && sent == old(sent) + [Message.LiftHillForward(pow)]
    {
      var msg := new byte[5](_ => 0);
      msg[0] := CONTROL_DC_2;
      msg[1] := ToByte(pow);
      msg[2] := FORWARD;
      SendPacket(msg, 3);
      assert msg[..3] == Payload(Message.LiftHillForward(pow));
      Log(Message.LiftHillForward(pow));
    }

    method LiftHillStop()
      requires Valid()
      modifies this
      ensures Valid() && sent == old(sent) + [Message.LiftHillStop]
    {
      var msg := new byte[5](_ => 0);
      msg[0] := CONTROL_DC_2;
      msg[1] := 0;
      SendPacket(msg, 2);
      assert msg[..2] == Payload(Message.LiftHillStop);
      Log(Message.LiftHillStop);
    }

    method StationForward(pow: int)
      requires Valid()
      modifies this
      ensures Valid() && sent == old(sent) + [Message.StationForward(pow)]
    {
      var msg := new byte[5](_ => 0);
      msg[0] := CONTROL_DC_1;
      msg[1] := ToByte(pow);
      msg[2] := FORWARD;
      SendPacket(msg, 3);
      assert msg[..3] == Payload(Message.StationForward(pow));
      Log(Message.StationForward(pow));
    }

    method StopStation()
      requires Valid()
      modifies this
      ensures Valid() && sent == old(sent) + [Message.StopStation]
    {
      var msg := new byte[5](_ => 0);
      msg[0] := CONTROL_DC_1;
      msg[1] := 0;
      SendPacket(msg, 2);
      assert msg[..2] == Payload(Message.StopStation);
      Log(Message.StopStation);
    }

    method ReleasePreStation(pow: int)
      requires Valid()
      modifies this
      ensures Valid() && sent == old(sent) + [Message.ReleasePreStation(pow)]
    {
      var msg := new byte[5](_ => 0);
      msg[0] := CONTROL_SERVO_1;
      msg[1] := ToByte(pow);
      SendPacket(msg, 2);
      assert msg[..2] == Payload(Message.ReleasePreStation(pow));
      Log(Message.ReleasePreStation(pow));
    }

    method StopPreStation()
      requires Valid()
      modifies this
      ensures Valid() && sent == old(sent) + [Message.StopPreStation]
    {
      var msg := new byte[5](_ => 0);
      msg[0] := CONTROL_SERVO_1;
      msg[1] := PRESTATION_STOP;
      SendPacket(msg, 2);
      assert msg[..2] == Payload(Message.StopPreStation);
      Log(Message.StopPreStation);
    }

    method ReleaseRide(pow: int)
      requires Valid()
      modifies this
      ensures Valid() && sent == old(sent) + [Message.ReleaseRide(pow)]
    {
      var msg := new byte[5](_ => 0);
      msg[0] := CONTROL_SERVO_2;
      msg[1] := ToByte(pow);
      SendPacket(msg, 2);
      assert msg[..2] == Payload(Message.ReleaseRide(pow));
      Log(Message.ReleaseRide(pow));
    }

    method StopRide()
      requires Valid()
      modifies this
      ensures Valid() && sent == old(sent) + [Message.StopRide]
    {
      var msg := new byte[5](_ => 0);
      msg[0] := CONTROL_SERVO_2;
      msg[1] := RIDE_STOP;
      SendPacket(msg, 2);
      assert msg[..2] == Payload(Message.StopRide);
      Log(Message.StopRide);
    }
  }
}
