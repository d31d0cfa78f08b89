/** What the controller guarantees over whole runs of control cycles: servos, motors, mode and start releases. */
module InterlockRuns {
  import opened Coaster
  import opened Interlock

  predicate Running(state: byte) {
    state == AUTOMATIC || state == MANUAL
  }

  predicate Halted(state: byte) {
    state == STOP || state == RETURN_TO_SAFE
  }

  /** The servo position that lets the train in a braked zone go. */
  function GoPosition(z: Zone): byte {
    if z == PreStation then PRESTATION_GO else RIDE_GO
  }

  function StopPosition(z: Zone): byte {
    if z == PreStation then PRESTATION_STOP else RIDE_STOP
  }

  predicate Braked(z: Zone) {
    z == PreStation || z == Ride
  }

  lemma InOrder(p: seq<Message>, q: seq<Message>, r: seq<Message>, s: seq<Message>, a: Actuators)
    ensures ObeyAll(p + q + r + s, a) == ObeyAll(s, ObeyAll(r, ObeyAll(q, ObeyAll(p, a))))
  {
    ObeyAllAppend(p + q + r, s, a);
    ObeyAllAppend(p + q, r, a);
    ObeyAllAppend(p, q, a);
  }

  /** The train standing in `z` may be sent on: `z` is ENTERED and the zone ahead EMPTY. */
  predicate Authorised(zones: Snapshot, z: Zone) {
    zones.Get(z) == Entered && zones.Get(z.Next()) == Empty
  }

  /** The station motor's power after a pass, given what it was before. */
  function StationPower(state: byte, zones: Snapshot, releaseGo: byte, reply: byte, before: byte): byte {
    var goingIn := (zones.station == Empty && zones.preStation == Entered) || zones.station == Entering;
    if state == AUTOMATIC then if goingIn || Authorised(zones, Station) then 128 else 0
    else if state == MANUAL then
      if goingIn || (Authorised(zones, Station) && (releaseGo != 0 || reply != 0)) then 128 else 0
    else if state == STOP then 0
    else if state == RETURN_TO_SAFE then if zones.station == Entering then 128 else 0
    else before
  }

  /** The lift hill motor's power after a pass. */
  function LiftHillPower(state: byte, zones: Snapshot, releaseGo: byte, before: byte): byte {
    if Running(state) then
      if (zones.liftHill == Empty && zones.station == Entered && (state == AUTOMATIC || releaseGo != 0))
         || zones.liftHill == Entering || Authorised(zones, LiftHill) then 255 else 0
    else if state == STOP then 0
    else if state == RETURN_TO_SAFE && zones.liftHill != Entering then 0
    else before
  }

  /** The position of a gravity brake after a pass. */
  function BrakePosition(state: byte, zones: Snapshot, z: Zone, before: byte): byte {
    if Running(state) then if Authorised(zones, z) then GoPosition(z) else StopPosition(z)
    else if Halted(state) && zones.Get(z) != Entered then StopPosition(z)
    else before
  }

  function Effect(state: byte, zones: Snapshot, releaseGo: byte, reply: byte, a: Actuators): Actuators {
    PerZone(StationPower(state, zones, releaseGo, reply, a.station),
            LiftHillPower(state, zones, releaseGo, a.liftHill),
            BrakePosition(state, zones, Ride, a.ride),
            BrakePosition(state, zones, PreStation, a.preStation))
  }

  lemma LiftHillEffect(zones: Snapshot, releaseGo: byte, a: Actuators)
    ensures ObeyAll(LiftHillAutomatic(zones), a)
            == a.(liftHill := LiftHillPower(AUTOMATIC, zones, releaseGo, a.liftHill))
    ensures ObeyAll(LiftHillManual(zones, releaseGo), a)
            == a.(liftHill := LiftHillPower(MANUAL, zones, releaseGo, a.liftHill))
    ensures ObeyAll([LiftHillStop], a) == a.(liftHill := LiftHillPower(STOP, zones, releaseGo, a.liftHill))
    ensures ObeyAll(LiftHillSafe(zones), a)
            == a.(liftHill := LiftHillPower(RETURN_TO_SAFE, zones, releaseGo, a.liftHill))
  {
  }

  lemma StationEffect(zones: Snapshot, releaseGo: byte, reply: byte, a: Actuators)
    ensures ObeyAll(StationAutomatic(zones, releaseGo).sent, a)
            == a.(station := StationPower(AUTOMATIC, zones, releaseGo, reply, a.station))
    ensures ObeyAll([StopStation], a) == a.(station := StationPower(STOP, zones, releaseGo, reply, a.station))
    ensures ObeyAll(StationSafe(zones, releaseGo).sent, a)
            == a.(station := StationPower(RETURN_TO_SAFE, zones, releaseGo, reply, a.station))
  {
  }

  lemma ManualStationEffect(zones: Snapshot, releaseGo: byte, reply: byte, a: Actuators)
    ensures ObeyAll(StationManual(zones, releaseGo, reply).sent, a)
            == a.(station := StationPower(MANUAL, zones, releaseGo, reply, a.station))
  {
    if Authorised(zones, Station) && releaseGo == 0 {
      var drive := [if reply != 0 then StationForward(128) else StopStation];
      ObeyAllAppend([CanSend(1)], drive, a);
    }
  }

  lemma BrakeEffect(state: byte, zones: Snapshot, a: Actuators)
    ensures Running(state) ==>
              && ObeyAll(PreStationRunning(zones), a)
                == a.(preStation := BrakePosition(state, zones, PreStation, a.preStation))
              && ObeyAll(RideRunning(zones), a) == a.(ride := BrakePosition(state, zones, Ride, a.ride))
    ensures Halted(state) ==>
              && ObeyAll(PreStationHalted(zones), a)
                == a.(preStation := BrakePosition(state, zones, PreStation, a.preStation))
              && ObeyAll(RideHalted(zones), a) == a.(ride := BrakePosition(state, zones, Ride, a.ride))
  {
  }

  lemma Chain(p: seq<Message>, q: seq<Message>, r: seq<Message>, s: seq<Message>,
              a: Actuators, b: Actuators, c: Actuators, d: Actuators, e: Actuators)
    requires ObeyAll(p, a) == b && ObeyAll(q, b) == c && ObeyAll(r, c) == d && ObeyAll(s, d) == e
    ensures ObeyAll(p + q + r + s, a) == e
  {
    hide *;
    InOrder(p, q, r, s, a);
  }

  /** Where one pass over the branches leaves each of the four actuators, whatever they were before. */
  lemma CycleEffect(state: byte, zones: Snapshot, releaseGo: byte, reply: byte, a: Actuators)
    ensures ObeyAll(Decide(state, zones, releaseGo, reply).sent, a) == Effect(state, zones, releaseGo, reply, a)
  {
    if Running(state) || Halted(state) {
      var b := a.(liftHill := LiftHillPower(state, zones, releaseGo, a.liftHill));
      var c := b.(station := StationPower(state, zones, releaseGo, reply, b.station));
      var d := c.(preStation := BrakePosition(state, zones, PreStation, c.preStation));
      var e := d.(ride := BrakePosition(state, zones, Ride, d.ride));
      assert e == Effect(state, zones, releaseGo, reply, a);
      hide ObeyAll, Effect;
      LiftHillEffect(zones, releaseGo, a);
      StationEffect(zones, releaseGo, reply, b);
      ManualStationEffect(zones, releaseGo, reply, b);
      BrakeEffect(state, zones, c);
      BrakeEffect(state, zones, d);
      hide LiftHillAutomatic, LiftHillManual, LiftHillSafe, StationAutomatic, StationManual, StationSafe,
           PreStationRunning, PreStationHalted, RideRunning, RideHalted,
           LiftHillPower, StationPower, BrakePosition;
      var hill := if state == AUTOMATIC then LiftHillAutomatic(zones)
                  else if state == MANUAL then LiftHillManual(zones, releaseGo)
                  else if state == STOP then [LiftHillStop] else LiftHillSafe(zones);
      var station := if state == AUTOMATIC then StationAutomatic(zones, releaseGo).sent
                     else if state == MANUAL then StationManual(zones, releaseGo, reply).sent
                     else if state == STOP then [StopStation] else StationSafe(zones, releaseGo).sent;
      var pre := if Running(state) then PreStationRunning(zones) else PreStationHalted(zones);
      var ride := if Running(state) then RideRunning(zones) else RideHalted(zones);
      assert Decide(state, zones, releaseGo, reply).sent == hill + station + pre + ride;
      Chain(hill, station, pre, ride, a, b, c, d, e);
    }
  }

  lemma CycleEffectWithPoll(m: Memory, c: Cycle, a: Actuators)
    ensures ObeyAll(SentIn(m, c), a) == ObeyAll(DecisionIn(m, c).sent, a)
  {
    ObeyAllAppend([RequestButtonState], DecisionIn(m, c).sent, a);
  }

  // ------------------------------------------------------------------ brake authority over runs

  /** Cycle `i` told the servo of `z` to release. */
  predicate Releases(m: Memory, cs: seq<Cycle>, i: nat, z: Zone)
    requires i < |cs|
  {
    Running(ModeAt(m, cs, i)) && Authorised(cs[i].zones, z)
  }

  /** Cycle `i` sent the servo of `z` nothing. */
  predicate LeavesServo(m: Memory, cs: seq<Cycle>, i: nat, z: Zone)
    requires i < |cs|
  {
    && !Running(ModeAt(m, cs, i))
    && (Halted(ModeAt(m, cs, i)) ==> cs[i].zones.Get(z) == Entered)
  }

  ghost predicate ReleasedAndLeft(m: Memory, cs: seq<Cycle>, z: Zone) {
    exists i :: 0 <= i < |cs| && Releases(m, cs, i, z) && forall j :: i < j < |cs| ==> LeavesServo(m, cs, j, z)
  }

  predicate ServosClosed(a: Actuators) {
    a.preStation == PRESTATION_STOP && a.ride == RIDE_STOP
  }

  lemma ReleasedAndLeftStep(m: Memory, cs: seq<Cycle>, z: Zone)
    requires cs != []
    ensures ReleasedAndLeft(m, cs, z) <==>
            || Releases(m, cs, |cs| - 1, z)
            || (LeavesServo(m, cs, |cs| - 1, z) && ReleasedAndLeft(m, cs[..|cs| - 1], z))
  {
    hide MemoryAfter, ModeIn, Authorised, Running, Halted;
    var n := |cs| - 1;
    var before := cs[..n];
    forall i | 0 <= i < n
      ensures Releases(m, cs, i, z) == Releases(m, before, i, z)
      ensures LeavesServo(m, cs, i, z) == LeavesServo(m, before, i, z)
    {
      PrefixOfPrefix(cs, i, n);
    }
    if ReleasedAndLeft(m, before, z) && LeavesServo(m, cs, n, z) {
      var i :| 0 <= i < |before| && Releases(m, before, i, z)
               && forall j :: i < j < |before| ==> LeavesServo(m, before, j, z);
      assert Releases(m, cs, i, z);
    }
    if Releases(m, cs, n, z) {
      assert ReleasedAndLeft(m, cs, z);
    }
    if ReleasedAndLeft(m, cs, z) && !Releases(m, cs, n, z) {
      var i :| 0 <= i < |cs| && Releases(m, cs, i, z) && forall j :: i < j < |cs| ==> LeavesServo(m, cs, j, z);
      assert i < n && LeavesServo(m, cs, n, z);
      assert Releases(m, before, i, z);
      assert forall j :: i < j < |before| ==> LeavesServo(m, before, j, z);
    }
  }

  /**
   * Starting from closed servos, the brake of a zone stands at GO after a run exactly when some
   * cycle found that zone ENTERED and its successor EMPTY in AUTOMATIC or MANUAL, and every later
   * cycle sent that servo nothing. At all other times it stands at STOP.
   */
  lemma {:induction false} BrakeAuthority(m: Memory, a: Actuators, cs: seq<Cycle>, z: Zone)
    requires ServosClosed(a) && Braked(z)
    ensures ActuatorsAfter(m, a, cs).Get(z) ==
            if ReleasedAndLeft(m, cs, z) then GoPosition(z) else StopPosition(z)
  {
    if cs != [] {
      var n := |cs| - 1;
      var m' := MemoryAfter(m, cs[..n]);
      BrakeAuthority(m, a, cs[..n], z);
      ReleasedAndLeftStep(m, cs, z);
      var c := cs[n];
      var a' := ActuatorsAfter(m, a, cs[..n]);
      CycleEffectWithPoll(m', c, a');
      CycleEffect(ModeIn(m', c), c.zones, m'.releaseGo, StartFromReply(1, c.startReply), a');
    }
  }

  /** No run of cycles, in whatever modes, ends with both gravity brakes released. */
  lemma {:induction false} BrakesExclude(m: Memory, a: Actuators, cs: seq<Cycle>)
    requires ServosClosed(a)
    ensures !(ActuatorsAfter(m, a, cs).ride == RIDE_GO && ActuatorsAfter(m, a, cs).preStation == PRESTATION_GO)
    ensures ActuatorsAfter(m, a, cs).ride in {RIDE_STOP, RIDE_GO}
    ensures ActuatorsAfter(m, a, cs).preStation in {PRESTATION_STOP, PRESTATION_GO}
  {
    hide Decide, ObeyAll, Overlay;
    if cs != [] {
      var n := |cs| - 1;
      var m' := MemoryAfter(m, cs[..n]);
      BrakesExclude(m, a, cs[..n]);
      var c := cs[n];
      var a' := ActuatorsAfter(m, a, cs[..n]);
      CycleEffectWithPoll(m', c, a');
      CycleEffect(ModeIn(m', c), c.zones, m'.releaseGo, StartFromReply(1, c.startReply), a');
      hide ModeIn, SentIn, AfterCycle, DecisionIn, StartFromReply, StationPower, LiftHillPower;
    }
  }

  // ----------------------------------------------------------------------------- mode and stop

  /** Replies arrive whole or not at all. */
  predicate WholeModeReply(reply: seq<byte>) {
    reply == [] || (|reply| == 2 && reply[0] == SEND_BUTTON_STATE && reply[1] != 255)
  }

  ghost predicate WholeReplies(cs: seq<Cycle>) {
    forall i :: 0 <= i < |cs| ==> WholeModeReply(cs[i].modeReply)
  }

  lemma HeardWhole(state: byte, reply: seq<byte>)
    requires WholeModeReply(reply)
    ensures Heard(state, reply) == if reply == [] then state else reply[1]
  {
  }

  /**
   * With whole replies the controller acts on the mode of the latest answered poll, and on the mode
   * it started in when none was answered: a missed reply never changes the mode.
   */
  lemma {:induction false} ModeAgreement(m: Memory, cs: seq<Cycle>)
    requires WholeReplies(cs)
    ensures (forall i :: 0 <= i < |cs| ==> cs[i].modeReply == []) ==> MemoryAfter(m, cs).state == m.state
    ensures forall i :: 0 <= i < |cs| && cs[i].modeReply != []
                        && (forall j :: i < j < |cs| ==> cs[j].modeReply == [])
                        ==> MemoryAfter(m, cs).state == cs[i].modeReply[1]
  {
    hide Decide, Overlay;
    if cs != [] {
      var n := |cs| - 1;
      var before := cs[..n];
      ModeAgreement(m, before);
      assert MemoryAfter(m, cs).state == Heard(MemoryAfter(m, before).state, cs[n].modeReply);
      HeardWhole(MemoryAfter(m, before).state, cs[n].modeReply);
      hide MemoryAfter, Heard;
      forall i | 0 <= i < |cs| && cs[i].modeReply != [] && (forall j :: i < j < |cs| ==> cs[j].modeReply == [])
        ensures MemoryAfter(m, cs).state == cs[i].modeReply[1]
      {
        if i < n {
          assert before[i] == cs[i];
          assert cs[n].modeReply == [];
        }
      }
      if forall i :: 0 <= i < |cs| ==> cs[i].modeReply == [] {
        assert cs[n].modeReply == [];
        assert forall i :: 0 <= i < |before| ==> before[i] == cs[i];
      }
    }
  }

  predicate StopOrSilence(reply: seq<byte>) {
    reply == [] || reply == [SEND_BUTTON_STATE, STOP]
  }

  lemma StopClears(m: Memory, c: Cycle)
    requires ModeIn(m, c) == STOP
    ensures AfterCycle(m, c) == Memory(STOP, 0)
  {
    hide Overlay;
  }

  /** From the first STOP answer on, as long as polls bring STOP or nothing, both motors are off after every cycle. */
  lemma {:induction false} StopResponse(m: Memory, a: Actuators, cs: seq<Cycle>, i: nat)
    requires i < |cs| && cs[i].modeReply == [SEND_BUTTON_STATE, STOP]
    requires forall j :: i < j < |cs| ==> StopOrSilence(cs[j].modeReply)
    ensures ActuatorsAfter(m, a, cs).station == 0 && ActuatorsAfter(m, a, cs).liftHill == 0
    ensures MemoryAfter(m, cs) == Memory(STOP, 0)
    decreases |cs|
  {
    hide Decide, ObeyAll, Overlay;
    var n := |cs| - 1;
    var m' := MemoryAfter(m, cs[..n]);
    var c := cs[n];
    var a' := ActuatorsAfter(m, a, cs[..n]);
    if i < n {
      StopResponse(m, a, cs[..n], i);
    }
    StopHeard(m', c);
    hide StopOrSilence, Heard, ModeIn;
    StopClears(m', c);
    CycleEffectWithPoll(m', c, a');
    CycleEffect(STOP, c.zones, m'.releaseGo, StartFromReply(1, c.startReply), a');
    hide DecisionIn, SentIn, AfterCycle, StartFromReply;
  }

  lemma SilentCycle(a: Actuators, c: Cycle)
    requires c.modeReply == []
    ensures AfterCycle(Memory(STOP, 0), c) == Memory(STOP, 0)
    ensures var after := ObeyAll(SentIn(Memory(STOP, 0), c), a);
            && after.station == 0 && after.liftHill == 0 && (ServosClosed(a) ==> ServosClosed(after))
  {
    var m := Memory(STOP, 0);
    hide Decide, ObeyAll, Overlay;
    StopHeard(m, c);
    hide Heard, ModeIn;
    StopClears(m, c);
    CycleEffectWithPoll(m, c, a);
    CycleEffect(STOP, c.zones, 0, StartFromReply(1, c.startReply), a);
    hide DecisionIn, SentIn, AfterCycle, StartFromReply;
  }

  /**
   * From start-up until the firmware is first heard, however long that takes and whatever the zones
   * show, the mode is STOP, no start is granted, both motors are off and closed brakes stay closed.
   */
  lemma {:induction false} SilentStart(a: Actuators, cs: seq<Cycle>)
    requires forall i :: 0 <= i < |cs| ==> cs[i].modeReply == []
    ensures MemoryAfter(BOOT, cs) == Memory(STOP, 0)
    ensures cs != [] ==> ActuatorsAfter(BOOT, a, cs).station == 0 && ActuatorsAfter(BOOT, a, cs).liftHill == 0
    ensures ServosClosed(a) ==> ServosClosed(ActuatorsAfter(BOOT, a, cs))
  {
    hide AfterCycle, SentIn, ObeyAll, ServosClosed;
    if cs != [] {
      var n := |cs| - 1;
      SilentStart(a, cs[..n]);
      SilentCycle(ActuatorsAfter(BOOT, a, cs[..n]), cs[n]);
    }
  }

  lemma StopHeard(m: Memory, c: Cycle)
    requires c.modeReply == [SEND_BUTTON_STATE, STOP] || (StopOrSilence(c.modeReply) && m.state == STOP)
    ensures ModeIn(m, c) == STOP
  {
  }

  // -------------------------------------------------------------------- one press, one dispatch

  /** Cycle `i` drives a train out of the station in MANUAL. */
  predicate Dispatches(m: Memory, cs: seq<Cycle>, i: nat)
    requires i < |cs|
  {
    && ModeAt(m, cs, i) == MANUAL && Authorised(cs[i].zones, Station)
    && MemoryAfter(m, cs[..i + 1]).releaseGo != 0
  }

  /** Cycle `i` asked for a start and was told the button is pressed. */
  predicate Pressed(m: Memory, cs: seq<Cycle>, i: nat)
    requires i < |cs|
  {
    && ModeAt(m, cs, i) == MANUAL && Authorised(cs[i].zones, Station)
    && MemoryAfter(m, cs[..i]).releaseGo == 0 && StartFromReply(1, cs[i].startReply) != 0
  }

  /** Cycle `i` clears `release_go`. */
  predicate Clears(m: Memory, cs: seq<Cycle>, i: nat)
    requires i < |cs|
  {
    var mode := ModeAt(m, cs, i);
    var zones := cs[i].zones;
    || mode == STOP
    || (mode == RETURN_TO_SAFE && zones.station == Entered)
    || (Running(mode) && zones.station == Entered && zones.liftHill != Empty)
  }

  /** The release in force after `cs` was granted in cycle `i` and not withdrawn since. */
  ghost predicate GrantedAt(m: Memory, cs: seq<Cycle>, i: nat)
    requires i < |cs|
  {
    Pressed(m, cs, i) && forall j :: i < j < |cs| ==> !Clears(m, cs, j)
  }

  lemma ReleaseStep(m: Memory, cs: seq<Cycle>)
    requires cs != []
    ensures var n := |cs| - 1;
            MemoryAfter(m, cs).releaseGo != 0 <==>
            Pressed(m, cs, n) || (MemoryAfter(m, cs[..n]).releaseGo != 0 && !Clears(m, cs, n))
  {
    assert cs[..|cs|] == cs;
  }

  lemma PressedAndClearsInPrefix(m: Memory, cs: seq<Cycle>, i: nat, n: nat)
    requires i < n <= |cs|
    ensures Pressed(m, cs[..n], i) == Pressed(m, cs, i) && Clears(m, cs[..n], i) == Clears(m, cs, i)
  {
    hide MemoryAfter, ModeIn, StartFromReply;
    PrefixOfPrefix(cs, i, n);
  }

  ghost predicate Granted(m: Memory, cs: seq<Cycle>) {
    exists i :: 0 <= i < |cs| && GrantedAt(m, cs, i)
  }

  lemma GrantedStep(m: Memory, cs: seq<Cycle>)
    requires cs != []
    ensures var n := |cs| - 1;
            Granted(m, cs) <==> Pressed(m, cs, n) || (Granted(m, cs[..n]) && !Clears(m, cs, n))
  {
    hide Clears, Pressed;
    var n := |cs| - 1;
    var before := cs[..n];
    forall i | 0 <= i < n
      ensures Pressed(m, cs, i) == Pressed(m, before, i) && Clears(m, cs, i) == Clears(m, before, i)
    {
      PressedAndClearsInPrefix(m, cs, i, n);
    }
    if Pressed(m, cs, n) {
      assert GrantedAt(m, cs, n);
    }
    if i :| 0 <= i < n && GrantedAt(m, before, i) {
      assert GrantedAt(m, cs, i) <==> !Clears(m, cs, n);
    }
    if i :| 0 <= i < |cs| && GrantedAt(m, cs, i) {
      assert i < n ==> GrantedAt(m, before, i) && !Clears(m, cs, n);
    }
  }

  /**
   * `release_go` is set after a run exactly when some cycle heard a press and no later cycle
   * cleared it. (The runs start with it clear, as the program does.)
   */
  lemma {:induction false} ReleaseByHistory(m: Memory, cs: seq<Cycle>)
    requires m.releaseGo == 0
    ensures MemoryAfter(m, cs).releaseGo != 0 <==> Granted(m, cs)
  {
    if cs != [] {
      hide Clears, Pressed, Granted, MemoryAfter;
      ReleaseByHistory(m, cs[..|cs| - 1]);
      ReleaseStep(m, cs);
      GrantedStep(m, cs);
    }
  }

  /**
   * The controller sees each departure in time: the last cycle that finds the station ENTERED
   * before it stops being so also finds the lift hill occupied, and is not a MAINTENANCE cycle.
   */
  ghost predicate DeparturesSeen(m: Memory, cs: seq<Cycle>) {
    forall i :: 0 <= i < |cs| - 1 && cs[i].zones.station == Entered && cs[i + 1].zones.station != Entered
                ==> cs[i].zones.liftHill != Empty && (Running(ModeAt(m, cs, i)) || Halted(ModeAt(m, cs, i)))
  }

  /** While the station is not ENTERED there is no release in force, so none carries to the next train. */
  lemma {:induction false} ReleaseNeverCarries(m: Memory, cs: seq<Cycle>)
    requires m.releaseGo == 0 && DeparturesSeen(m, cs)
    ensures cs != [] && MemoryAfter(m, cs).releaseGo != 0 ==> cs[|cs| - 1].zones.station == Entered
  {
    if cs != [] {
      var n := |cs| - 1;
      var before := cs[..n];
      forall i | 0 <= i < |before|
        ensures ModeAt(m, before, i) == ModeAt(m, cs, i)
      {
        PrefixOfPrefix(cs, i, n);
      }
      assert DeparturesSeen(m, before);
      ReleaseNeverCarries(m, before);
      ReleaseStep(m, cs);
      if n > 0 && before[n - 1].zones.station == Entered && cs[n].zones.station != Entered {
        assert cs[n - 1].zones.liftHill != Empty;
        ReleaseStep(m, before);
        PrefixOfPrefix(cs, n - 1, n);
        assert Clears(m, before, n - 1);
      }
    }
  }

  /** One stay of a train in the station, as the cycles see it: cycles `i` to `j` all find it ENTERED. */
  ghost predicate SameStay(cs: seq<Cycle>, i: nat, j: nat)
    requires i <= j < |cs|
  {
    forall k :: i <= k <= j ==> cs[k].zones.station == Entered
  }

  /**
   * Every cycle that drives a train out of the station in MANUAL does so on a press heard during
   * that train's own stay. Distinct stays share no cycle, so distinct dispatches need distinct presses.
   */
  lemma {:induction false} OnePressOneDispatch(m: Memory, cs: seq<Cycle>, i: nat)
    requires m.releaseGo == 0 && DeparturesSeen(m, cs)
    requires i < |cs| && Dispatches(m, cs, i)
    ensures exists p :: 0 <= p <= i && Pressed(m, cs, p) && SameStay(cs, p, i)
  {
    PressInThisStay(m, cs, i);
  }

  lemma StayedBefore(m: Memory, cs: seq<Cycle>, i: nat)
    requires m.releaseGo == 0 && DeparturesSeen(m, cs) && i < |cs| && cs[i].zones.station == Entered
    requires MemoryAfter(m, cs[..i + 1]).releaseGo != 0 && !Pressed(m, cs, i)
    ensures i > 0 && cs[i - 1].zones.station == Entered && MemoryAfter(m, cs[..i]).releaseGo != 0
  {
    var now := cs[..i + 1];
    assert now[..i] == cs[..i];
    assert Pressed(m, now, i) == Pressed(m, cs, i);
    ReleaseStep(m, now);
    hide Pressed, Clears;
    DeparturesSeenBefore(m, cs, i);
    ReleaseNeverCarries(m, cs[..i]);
    hide DeparturesSeen;
  }

  lemma {:induction false} PressInThisStay(m: Memory, cs: seq<Cycle>, i: nat)
    requires m.releaseGo == 0 && DeparturesSeen(m, cs)
    requires i < |cs| && cs[i].zones.station == Entered && MemoryAfter(m, cs[..i + 1]).releaseGo != 0
    ensures exists p :: 0 <= p <= i && Pressed(m, cs, p) && SameStay(cs, p, i)
    decreases i
  {
    hide Pressed, DeparturesSeen, MemoryAfter;
    if Pressed(m, cs, i) {
      assert SameStay(cs, i, i);
    } else {
      StayedBefore(m, cs, i);
      PressInThisStay(m, cs, i - 1);
      var p :| 0 <= p <= i - 1 && Pressed(m, cs, p) && SameStay(cs, p, i - 1);
      assert SameStay(cs, p, i);
    }
  }

  // ------------------------------------------------------------- exactly when a press stays its own

  /** No cycle strictly between `p` and `d` withdraws a release. */
  ghost predicate NoClearsBetween(m: Memory, cs: seq<Cycle>, p: nat, d: nat)
    requires p <= d < |cs|
  {
    forall j :: p < j < d ==> !Clears(m, cs, j)
  }

  ghost predicate OwnPress(m: Memory, cs: seq<Cycle>, d: nat)
    requires d < |cs|
  {
    exists p :: 0 <= p <= d && Pressed(m, cs, p) && SameStay(cs, p, d)
  }

  lemma DispatchDoesNotClear(m: Memory, cs: seq<Cycle>, d: nat)
    requires d < |cs| && Dispatches(m, cs, d)
    ensures !Clears(m, cs, d) && SameStay(cs, d, d)
  {
    hide MemoryAfter, ModeIn;
  }

  /** The press a release in force rests on. */
  lemma PressBehind(m: Memory, cs: seq<Cycle>, d: nat) returns (p: nat)
    requires m.releaseGo == 0 && d < |cs| && MemoryAfter(m, cs[..d + 1]).releaseGo != 0
    ensures p <= d && Pressed(m, cs, p) && NoClearsBetween(m, cs, p, d)
  {
    var now := cs[..d + 1];
    ReleaseByHistory(m, now);
    p :| 0 <= p < |now| && GrantedAt(m, now, p);
    hide Pressed, Clears, MemoryAfter;
    PressedAndClearsInPrefix(m, cs, p, d + 1);
    forall j | p < j < d
      ensures !Clears(m, cs, j)
    {
      PressedAndClearsInPrefix(m, cs, j, d + 1);
    }
  }

  /** A press still in force leaves no room for another. */
  lemma NoSecondPress(m: Memory, cs: seq<Cycle>, p: nat, q: nat)
    requires m.releaseGo == 0 && p < q < |cs| && Pressed(m, cs, p) && NoClearsBetween(m, cs, p, q)
    ensures !Pressed(m, cs, q)
  {
    var before := cs[..q];
    forall j | p <= j < q
      ensures Pressed(m, before, j) == Pressed(m, cs, j) && Clears(m, before, j) == Clears(m, cs, j)
    {
      PressedAndClearsInPrefix(m, cs, j, q);
    }
    assert GrantedAt(m, before, p) by {
      hide Pressed, Clears;
    }
    ReleaseByHistory(m, before);
  }

  /**
   * Exactly when one press drives out one train: every train driven out of the station in MANUAL
   * has a press of its own stay behind it if and only if no press, still standing when a later cycle
   * dispatches, has seen its own train's stay end in between.
   */
  lemma OwnPressExactly(m: Memory, cs: seq<Cycle>)
    requires m.releaseGo == 0
    ensures (forall d :: 0 <= d < |cs| && Dispatches(m, cs, d) ==> OwnPress(m, cs, d)) <==>
            (forall p, d ::
               0 <= p < d < |cs| && Pressed(m, cs, p) && Dispatches(m, cs, d) && NoClearsBetween(m, cs, p, d)
               ==> SameStay(cs, p, d))
  {
    hide Pressed, Dispatches, NoClearsBetween, MemoryAfter;
    if forall d :: 0 <= d < |cs| && Dispatches(m, cs, d) ==> OwnPress(m, cs, d) {
      forall p, d | 0 <= p < d < |cs| && Pressed(m, cs, p) && Dispatches(m, cs, d) && NoClearsBetween(m, cs, p, d)
        ensures SameStay(cs, p, d)
      {
        var q :| 0 <= q <= d && Pressed(m, cs, q) && SameStay(cs, q, d);
        if q > p {
          FewerBetween(m, cs, p, q, d);
          NoSecondPress(m, cs, p, q);
        }
      }
    }
    if forall p, d :: 0 <= p < d < |cs| && Pressed(m, cs, p) && Dispatches(m, cs, d) && NoClearsBetween(m, cs, p, d)
                      ==> SameStay(cs, p, d) {
      forall d | 0 <= d < |cs| && Dispatches(m, cs, d)
        ensures OwnPress(m, cs, d)
      {
        DispatchDoesNotClear(m, cs, d);
        InForce(m, cs, d);
        var p := PressBehind(m, cs, d);
        assert SameStay(cs, p, d);
      }
    }
  }

  lemma InForce(m: Memory, cs: seq<Cycle>, d: nat)
    requires d < |cs| && Dispatches(m, cs, d)
    ensures MemoryAfter(m, cs[..d + 1]).releaseGo != 0
  {
    hide MemoryAfter;
  }

  lemma FewerBetween(m: Memory, cs: seq<Cycle>, p: nat, q: nat, d: nat)
    requires p <= q <= d < |cs| && NoClearsBetween(m, cs, p, d)
    ensures NoClearsBetween(m, cs, p, q)
  {
    hide Clears;
  }

  /**
   * At a departure, exactly when the release outlives it: it was in force, granted by a press, as the
   * station was last found ENTERED, and the cycle that finds the train gone is not in STOP.
   */
  lemma CarriesExactly(m: Memory, cs: seq<Cycle>, i: nat)
    requires m.releaseGo == 0 && i + 1 < |cs| && cs[i].zones.station == Entered && cs[i + 1].zones.station != Entered
    ensures MemoryAfter(m, cs[..i + 2]).releaseGo != 0 <==> Granted(m, cs[..i + 1]) && ModeAt(m, cs, i + 1) != STOP
  {
    var now := cs[..i + 2];
    assert now[..i + 1] == cs[..i + 1];
    ReleaseByHistory(m, cs[..i + 1]);
    ReleaseStep(m, now);
    PressedAndClearsInPrefix(m, cs, i + 1, i + 2);
    hide MemoryAfter, ModeIn, StartFromReply, Granted;
  }

  /** Presses heard, stays from which a train was driven out, and whether the current stay is among them. */
  datatype Tally = Tally(presses: nat, dispatched: nat, counted: bool)

  function TallyAfter(m: Memory, cs: seq<Cycle>): Tally {
    if cs == [] then Tally(0, 0, false)
    else
      var n := |cs| - 1;
      var t := TallyAfter(m, cs[..n]);
      var counted := t.counted && cs[n].zones.station == Entered;
      var first := Dispatches(m, cs, n) && !counted;
      Tally(t.presses + (if Pressed(m, cs, n) then 1 else 0),
            t.dispatched + (if first then 1 else 0),
            counted || first)
  }

  /** A release in force for a stay not yet counted. */
  function Outstanding(m: Memory, cs: seq<Cycle>): nat {
    if MemoryAfter(m, cs).releaseGo != 0 && !TallyAfter(m, cs).counted then 1 else 0
  }

  lemma DispatchFacts(m: Memory, cs: seq<Cycle>)
    requires cs != []
    ensures Dispatches(m, cs, |cs| - 1) ==> MemoryAfter(m, cs).releaseGo != 0 && cs[|cs| - 1].zones.station == Entered
    ensures Pressed(m, cs, |cs| - 1) ==> MemoryAfter(m, cs[..|cs| - 1]).releaseGo == 0
  {
    hide MemoryAfter, ModeIn, StartFromReply;
    assert cs[..|cs|] == cs;
  }

  lemma DeparturesSeenBefore(m: Memory, cs: seq<Cycle>, n: nat)
    requires n <= |cs| && DeparturesSeen(m, cs)
    ensures DeparturesSeen(m, cs[..n])
  {
    hide MemoryAfter, ModeIn;
    forall i | 0 <= i < n
      ensures ModeAt(m, cs[..n], i) == ModeAt(m, cs, i)
    {
      PrefixOfPrefix(cs, i, n);
    }
  }

  /** No more stays end in a dispatch than presses were heard. */
  lemma {:induction false} OnePressAtMostOneDispatch(m: Memory, cs: seq<Cycle>)
    requires m.releaseGo == 0 && DeparturesSeen(m, cs)
    ensures TallyAfter(m, cs).dispatched + Outstanding(m, cs) <= TallyAfter(m, cs).presses
  {
    if cs != [] {
      var n := |cs| - 1;
      DeparturesSeenBefore(m, cs, n);
      OnePressAtMostOneDispatch(m, cs[..n]);
      ReleaseNeverCarries(m, cs[..n]);
      ReleaseNeverCarries(m, cs);
      ReleaseStep(m, cs);
      DispatchFacts(m, cs);
      hide MemoryAfter, Dispatches, Pressed, Clears, DeparturesSeen;
    }
  }

  /**
   * Without that timing the promise fails: here a release granted to one train survives its
   * departure, unseen because the lift hill was found EMPTY again, and drives out the next.
   */
  lemma ReleaseCanCarry()
    ensures
      var stop := [SEND_BUTTON_STATE, MANUAL];
      var waiting := PerZone(Entered, Empty, Empty, Empty);
      var gone := PerZone(Empty, Empty, Empty, Empty);
      var cs := [Cycle(waiting, stop, [RESPOND_CAN_SEND, 1]), Cycle(gone, [], []),
          Cycle(waiting, [], [RESPOND_CAN_SEND, 0])];
      Dispatches(BOOT, cs, 2) && !exists p :: 0 < p <= 2 && Pressed(BOOT, cs, p)
  {
    var stop := [SEND_BUTTON_STATE, MANUAL];
    var waiting := PerZone(Entered, Empty, Empty, Empty);
    var gone := PerZone(Empty, Empty, Empty, Empty);
    var cs := [Cycle(waiting, stop, [RESPOND_CAN_SEND, 1]), Cycle(gone, [], []),
        Cycle(waiting, [], [RESPOND_CAN_SEND, 0])];
    assert cs[..0] == [];
    assert cs[..1][..0] == [] && cs[..2][..1] == cs[..1] && cs[..3][..2] == cs[..2];
    var m1 := AfterCycle(BOOT, cs[0]);
    assert m1 == Memory(MANUAL, 1);
    assert MemoryAfter(BOOT, cs[..1]) == m1;
    assert MemoryAfter(BOOT, cs[..2]) == m1;
    assert MemoryAfter(BOOT, cs[..3]) == m1;
  }
}
