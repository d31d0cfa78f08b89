/** The vocabulary both processors share: zones, mode and message codes, and the four actuators. */
module Coaster {
  datatype Option<+T> = None | Some(value: T)

  type byte = x: int | 0 <= x < 256

  /** What a C cast to `uint8_t` keeps of an `int`. */
  function ToByte(x: int): byte {
    x % 256
  }

  /** What a zone believes about itself. */
  datatype ZoneState = Entering | Entered | Empty

  /** The four blocks of the ring, in the order a train visits them. */
  datatype Zone = Station | LiftHill | Ride | PreStation {
    function Next(): Zone {
      match this
      case Station => LiftHill
      case LiftHill => Ride
      case Ride => PreStation
      case PreStation => Station
    }

    function Prev(): Zone {
      match this
      case Station => PreStation
      case LiftHill => Station
      case Ride => LiftHill
      case PreStation => Ride
    }
  }

  /** One value for each zone. */
  datatype PerZone<+T> = PerZone(station: T, liftHill: T, ride: T, preStation: T) {
    function Get(z: Zone): T {
      match z
      case Station => station
      case LiftHill => liftHill
      case Ride => ride
      case PreStation => preStation
    }
  }

  function Put<T>(p: PerZone<T>, z: Zone, v: T): PerZone<T> {
    match z
    case Station => p.(station := v)
    case LiftHill => p.(liftHill := v)
    case Ride => p.(ride := v)
    case PreStation => p.(preStation := v)
  }

  type Snapshot = PerZone<ZoneState>

  // Operating modes, as both processors number them.
  const AUTOMATIC: byte := 0
  const MANUAL: byte := 1
  const MAINTENANCE: byte := 2
  const STOP: byte := 3
  const RETURN_TO_SAFE: byte := 4

  // Message codes, as both processors number them.
  const REQUEST_BUTTON_STATE: byte := 0
  const SEND_BUTTON_STATE: byte := 1
  const CONTROL_SERVO_1: byte := 2
  const CONTROL_SERVO_2: byte := 3
  const CONTROL_DC_1: byte := 4
  const CONTROL_DC_2: byte := 5
  const SEND_CAN_SEND: byte := 6
  const RESPOND_CAN_SEND: byte := 7

  const FORWARD: byte := 1

  // Servo positions.
  const PRESTATION_STOP: byte := 140
  const PRESTATION_GO: byte := 180
  const RIDE_STOP: byte := 185
  const RIDE_GO: byte := 250

  const FRAME_START: byte := 0x7b
  const FRAME_END: byte := 0x7d

  /** How a payload goes over the wire. */
  function Frame(payload: seq<byte>): seq<byte> {
    [FRAME_START] + payload + [FRAME_END]
  }

  /** Everything the Pi ever puts on the wire. */
  datatype Message =
    | RequestButtonState
    | CanSend(canSend: int)
    | LiftHillForward(power: int)
    | LiftHillStop
    | StationForward(power: int)
    | StopStation
    | ReleasePreStation(position: int)
    | StopPreStation
    | ReleaseRide(position: int)
    | StopRide

  /** The station and hill motor powers and the ride and pre-station servo positions. */
  type Actuators = PerZone<byte>

  /** Which actuator a message is meant to move, and to where. */
  function Target(m: Message): Option<(Zone, byte)> {
    match m
    case RequestButtonState => None
    case CanSend(_) => None
    case LiftHillForward(power) => Some((LiftHill, ToByte(power)))
    case LiftHillStop => Some((LiftHill, 0))
    case StationForward(power) => Some((Station, ToByte(power)))
    case StopStation => Some((Station, 0))
    case ReleasePreStation(position) => Some((PreStation, ToByte(position)))
    case StopPreStation => Some((PreStation, PRESTATION_STOP))
    case ReleaseRide(position) => Some((Ride, ToByte(position)))
    case StopRide => Some((Ride, RIDE_STOP))
  }

  function Obey(m: Message, a: Actuators): Actuators {
    match Target(m)
    case None => a
    case Some(t) => Put(a, t.0, t.1)
  }

  /** Commands are latched: each holds until the next one for the same actuator. */
  function ObeyAll(ms: seq<Message>, a: Actuators): Actuators {
    if ms == [] then a else ObeyAll(ms[1..], Obey(ms[0], a))
  }

  predicate Addresses(m: Message, z: Zone) {
    Target(m).Some? && Target(m).value.0 == z
  }

  lemma ObeyAllAppend(ms: seq<Message>, ns: seq<Message>, a: Actuators)
    ensures ObeyAll(ms + ns, a) == ObeyAll(ns, ObeyAll(ms, a))
  {
    if ms == [] {
      assert ms + ns == ns;
    } else {
      assert (ms + ns)[1..] == ms[1..] + ns;
    }
  }

  /** The value the last message addressed to `z` asks for. */
  function LastFor(ms: seq<Message>, z: Zone): Option<byte> {
    if ms == [] then None
    else if Addresses(ms[|ms| - 1], z) then Some(Target(ms[|ms| - 1]).value.1)
    else LastFor(ms[..|ms| - 1], z)
  }

  /** Last command wins; an actuator nobody addressed keeps its value. */
  lemma {:induction false} LastCommandWins(ms: seq<Message>, a: Actuators, z: Zone)
    ensures ObeyAll(ms, a).Get(z) == match LastFor(ms, z) case Some(v) => v case None => a.Get(z)
  {
    if ms != [] {
      var n := |ms| - 1;
      assert ms == ms[..n] + [ms[n]];
      ObeyAllAppend(ms[..n], [ms[n]], a);
      LastCommandWins(ms[..n], a, z);
    }
  }
}
