/**
 * Pi/brakeZone.cpp and Pi/controller.c together: the control thread asks `getState` again and again
 * while it works through its branches, and monitor threads may write between any two of its accesses.
 */
module Snapshots {
  import opened Coaster
  import opened Interlock

  /** What the threads share: the state each monitor writes, and the copy `getState` returns. */
  datatype Shared = Shared(internal: Snapshot, state: Snapshot)

  /** A monitor thread stores `value` as the state of its zone. */
  datatype MonitorWrite = MonitorWrite(zone: Zone, value: ZoneState)

  /** Any writes by monitors, in any order; nothing is assumed about the values. */
  function Disturb(m: Shared, ws: seq<MonitorWrite>): (m': Shared)
    ensures m'.state == m.state
    decreases ws
  {
    if ws == [] then m else Disturb(m.(internal := Put(m.internal, ws[0].zone, ws[0].value)), ws[1..])
  }

  /** `updateState` of one zone. */
  function Update(m: Shared, z: Zone): Shared {
    m.(state := Put(m.state, z, m.internal.Get(z)))
  }

  /** A section of branches as the control thread runs it: one `getState` call per test. */
  datatype Code = Leaf(done: Decision) | Test(zone: Zone, shown: ZoneState, yes: Code, no: Code)

  /** `y.getState() == a && z.getState() == b`, the second call made only if the first succeeds. */
  function Both(y: Zone, a: ZoneState, z: Zone, b: ZoneState, yes: Code, no: Code): Code {
    Test(y, a, Test(z, b, yes, no), no)
  }

  /** Where a schedule says what monitors write before the control thread's `n`-th access. */
  type Schedule = nat -> seq<MonitorWrite>

  /** A section run amid monitor writes: its outcome, the memory after it, and the accesses made so far. */
  function RunCode(code: Code, m: Shared, noise: Schedule, n: nat): (Decision, Shared, nat) {
    match code
    case Leaf(d) => (d, m, n)
    case Test(z, v, yes, no) =>
      var m' := Disturb(m, noise(n));
      RunCode(if m'.state.Get(z) == v then yes else no, m', noise, n + 1)
  }

  /** The same section run on a snapshot, all at once. */
  function RunOn(code: Code, zones: Snapshot): Decision {
    match code
    case Leaf(d) => d
    case Test(z, v, yes, no) => RunOn(if zones.Get(z) == v then yes else no, zones)
  }

  /** All `getState` calls of a section agree, whatever the monitors do meanwhile. */
  lemma {:induction false} ReadsAgree(code: Code, m: Shared, noise: Schedule, n: nat)
    ensures RunCode(code, m, noise, n).0 == RunOn(code, m.state) && RunCode(code, m, noise, n).1.state == m.state
  {
    match code
    case Leaf(_) =>
    case Test(z, v, yes, no) =>
      var m' := Disturb(m, noise(n));
      ReadsAgree(if m'.state.Get(z) == v then yes else no, m', noise, n + 1);
  }

  // ------------------------------------------------------------- the sections, test by test

  function LiftHillRunningCode(manual: bool, go: byte): Code {
    var forward := Leaf(Decision([LiftHillForward(255)], go));
    var stop := Leaf(Decision([LiftHillStop], go));
    var held := Test(LiftHill, Entered, Test(Ride, Empty, stop, stop), stop);
    var rest := Test(LiftHill, Empty, stop,
                Test(LiftHill, Entering, forward,
                Both(LiftHill, Entered, Ride, Empty, forward, held)));
    Both(LiftHill, Empty, Station, Entered, if manual && go == 0 then rest else forward, rest)
  }

  /** What MANUAL does when the station may dispatch: ask if there is no release yet, then drive or stop. */
  function ManualDispatch(go: byte, reply: byte): Decision {
    var go' := if go == 0 then reply else go;
    Decision((if go == 0 then [CanSend(1)] else []) + [if go' != 0 then StationForward(128) else StopStation], go')
  }

  function StationRunningCode(dispatch: Decision, go: byte): Code {
    var lost := Leaf(Decision([StopStation], 0));
    var rest := Test(Station, Entered, Leaf(Decision([StationForward(0)], 0)), Test(LiftHill, Empty, lost, lost));
    Both(Station, Empty, PreStation, Entered, Leaf(Decision([StationForward(128)], go)),
    Test(Station, Empty, Leaf(Decision([StopStation], go)),
    Test(Station, Entering, Leaf(Decision([StationForward(128)], go)),
    Both(Station, Entered, LiftHill, Empty, Leaf(dispatch), rest))))
  }

  function BrakeRunningCode(z: Zone, stop: Message, hold: Message, release: Message, go: byte): Code {
    var halt := Leaf(Decision([stop], go));
    Both(z, Empty, z.Prev(), Entered, Leaf(Decision([hold], go)),
    Test(z, Empty, halt,
    Test(z, Entering, Leaf(Decision([hold], go)),
    Both(z, Entered, z.Next(), Empty, Leaf(Decision([release], go)),
    Test(z, Entered, halt, Leaf(Decision([], go)))))))
  }

  function BrakeHaltedCode(z: Zone, stop: Message, hold: Message, go: byte): Code {
    var halt := Leaf(Decision([stop], go));
    Test(z, Empty, halt, Test(z, Empty, halt, Test(z, Entering, Leaf(Decision([hold], go)), Leaf(Decision([], go)))))
  }

  function PreStationRunningCode(go: byte): Code {
    BrakeRunningCode(PreStation, StopPreStation, ReleasePreStation(PRESTATION_STOP),
        ReleasePreStation(PRESTATION_GO), go)
  }

  function RideRunningCode(go: byte): Code {
    BrakeRunningCode(Ride, StopRide, ReleaseRide(RIDE_STOP), ReleaseRide(RIDE_GO), go)
  }

  function PreStationHaltedCode(go: byte): Code {
    BrakeHaltedCode(PreStation, StopPreStation, ReleasePreStation(PRESTATION_STOP), go)
  }

  function RideHaltedCode(go: byte): Code {
    BrakeHaltedCode(Ride, StopRide, ReleaseRide(RIDE_STOP), go)
  }

  function LiftHillSafeCode(go: byte): Code {
    var stop := Leaf(Decision([LiftHillStop], go));
    Test(LiftHill, Empty, stop, Test(LiftHill, Entered, stop, Leaf(Decision([], go))))
  }

  function StationSafeCode(go: byte): Code {
    var stop := Leaf(Decision([StopStation], go));
    Test(Station, Empty, stop, Test(Station, Empty, stop,
    Test(Station, Entering, Leaf(Decision([StationForward(128)], go)),
    Test(Station, Entered, Leaf(Decision([StationForward(0)], 0)), Leaf(Decision([], go))))))
  }

  /** One pass over the branches: the hill, the station, the pre-station and the ride, in that order. */
  datatype Pass = Pass(hill: Code, station: Code, preStation: Code, ride: Code)

  function PassCode(state: byte, go: byte, reply: byte): Pass {
    var nothing := Leaf(Decision([], go));
    if state == AUTOMATIC then
      Pass(LiftHillRunningCode(false, go), StationRunningCode(Decision([StationForward(128)], go), go),
           PreStationRunningCode(go), RideRunningCode(go))
    else if state == MANUAL then
      Pass(LiftHillRunningCode(true, go), StationRunningCode(ManualDispatch(go, reply), go),
           PreStationRunningCode(go), RideRunningCode(go))
    else if state == STOP then
      Pass(Leaf(Decision([LiftHillStop], go)), Leaf(Decision([StopStation], 0)),
           PreStationHaltedCode(go), RideHaltedCode(go))
    else if state == RETURN_TO_SAFE then
      Pass(LiftHillSafeCode(go), StationSafeCode(go), PreStationHaltedCode(go), RideHaltedCode(go))
    else
      Pass(nothing, nothing, nothing, nothing)
  }

  function Joined(hill: Decision, station: Decision, preStation: Decision, ride: Decision): Decision {
    Decision(hill.sent + station.sent + preStation.sent + ride.sent, station.releaseGo)
  }

  /** The four sections one after the other, amid monitor writes. */
  function RunPass(pass: Pass, m: Shared, noise: Schedule, n: nat): Decision {
    var (hill, m1, n1) := RunCode(pass.hill, m, noise, n);
    var (station, m2, n2) := RunCode(pass.station, m1, noise, n1);
    var (preStation, m3, n3) := RunCode(pass.preStation, m2, noise, n2);
    var (ride, _, _) := RunCode(pass.ride, m3, noise, n3);
    Joined(hill, station, preStation, ride)
  }

  /** Tests one by one, however deep. */
  lemma StepByStep(zones: Snapshot)
    ensures forall d :: RunOn(Leaf(d), zones) == d
    ensures forall z: Zone, v, yes, no {:trigger RunOn(Test(z, v, yes, no), zones)} ::
              RunOn(Test(z, v, yes, no), zones) == if zones.Get(z) == v then RunOn(yes, zones) else RunOn(no, zones)
  {
  }

  lemma MotorCode(z: Snapshot, go: byte, reply: byte)
    ensures RunOn(LiftHillRunningCode(false, go), z).sent == LiftHillAutomatic(z)
    ensures RunOn(LiftHillRunningCode(true, go), z).sent == LiftHillManual(z, go)
    ensures RunOn(LiftHillSafeCode(go), z).sent == LiftHillSafe(z)
    ensures RunOn(StationRunningCode(Decision([StationForward(128)], go), go), z) == StationAutomatic(z, go)
    ensures RunOn(StationRunningCode(ManualDispatch(go, reply), go), z) == StationManual(z, go, reply)
    ensures RunOn(StationSafeCode(go), z) == StationSafe(z, go)
  {
    StepByStep(z);
    hide RunOn;
  }

  lemma BrakeCode(z: Snapshot, go: byte)
    ensures RunOn(PreStationRunningCode(go), z).sent == PreStationRunning(z)
    ensures RunOn(RideRunningCode(go), z).sent == RideRunning(z)
    ensures RunOn(PreStationHaltedCode(go), z).sent == PreStationHalted(z)
    ensures RunOn(RideHaltedCode(go), z).sent == RideHalted(z)
  {
    StepByStep(z);
    hide RunOn;
  }

  lemma PassDecides(state: byte, go: byte, reply: byte, m: Shared, noise: Schedule, n: nat)
    ensures RunPass(PassCode(state, go, reply), m, noise, n) == Decide(state, m.state, go, reply)
  {
    var pass := PassCode(state, go, reply);
    var (_, m1, n1) := RunCode(pass.hill, m, noise, n);
    var (_, m2, n2) := RunCode(pass.station, m1, noise, n1);
    var (_, m3, n3) := RunCode(pass.preStation, m2, noise, n2);
    ReadsAgree(pass.hill, m, noise, n);
    ReadsAgree(pass.station, m1, noise, n1);
    ReadsAgree(pass.preStation, m2, noise, n2);
    ReadsAgree(pass.ride, m3, noise, n3);
    MotorCode(m.state, go, reply);
    BrakeCode(m.state, go);
  }

  // ---------------------------------------------------------------------------- a whole cycle

  /** The order in which the control thread copies the zones. */
  const UPDATE_ORDER: seq<Zone> := [LiftHill, Ride, PreStation, Station]

  /** The shared memory at the moment of the control thread's `k`-th copy. */
  function Moment(m: Shared, noise: Schedule, k: nat): Shared
    requires k < 4
  {
    Disturb(MidCopy(m, noise, k), noise(k))
  }

  /** The shared memory just after the first `k` copies. */
  function MidCopy(m: Shared, noise: Schedule, k: nat): Shared
    requires k <= 4
  {
    if k == 0 then m else Update(Disturb(MidCopy(m, noise, k - 1), noise(k - 1)), UPDATE_ORDER[k - 1])
  }

  /** Later copies leave earlier ones alone. */
  lemma {:induction false} CopiesLast(m: Shared, noise: Schedule, j: nat, k: nat)
    requires j < k <= 4
    ensures MidCopy(m, noise, k).state.Get(UPDATE_ORDER[j]) == Moment(m, noise, j).internal.Get(UPDATE_ORDER[j])
  {
    if j + 1 < k {
      CopiesLast(m, noise, j, k - 1);
      assert UPDATE_ORDER[j] != UPDATE_ORDER[k - 1];
    }
  }

  /**
   * Snapshot refinement. In every interleaving of the monitors with one control cycle, the commands
   * the branches send, and the `release_go` they leave, are those of a single decision on one
   * snapshot, each entry of which its monitor's state really had when that zone was copied.
   */
  lemma SnapshotRefinement(m: Shared, noise: Schedule, state: byte, go: byte, reply: byte)
    ensures var zones := MidCopy(m, noise, 4).state;
            && RunPass(PassCode(state, go, reply), MidCopy(m, noise, 4), noise, 4) == Decide(state, zones, go, reply)
            && forall k :: 0 <= k < 4 ==>
                 zones.Get(UPDATE_ORDER[k]) == Moment(m, noise, k).internal.Get(UPDATE_ORDER[k])
  {
    PassDecides(state, go, reply, MidCopy(m, noise, 4), noise, 4);
    hide RunPass, PassCode, Decide, MidCopy;
    forall k | 0 <= k < 4
      ensures MidCopy(m, noise, 4).state.Get(UPDATE_ORDER[k]) == Moment(m, noise, k).internal.Get(UPDATE_ORDER[k])
    {
      CopiesLast(m, noise, k, 4);
    }
  }
}
