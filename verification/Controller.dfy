/** Pi/controller.c as it runs: four zones with monitors, one control loop, one serial line. */
module Controllers {
  import opened Coaster
  import opened EdgeEvents
  import opened BrakeZones
  import opened Interlock
  import opened SerialLink

  /** One call of a zone's monitor thread, with what `select` and `read` bring it. */
  datatype MonitorCall = MonitorCall(zone: Zone, brings: Call) {
    predicate Possible() {
      brings.Possible()
    }
  }

  /** One turn of the control loop: the monitor calls that run before it, and the answers it gets. */
  datatype Turn = Turn(monitors: seq<MonitorCall>, modeReply: seq<byte>, startReply: seq<byte>) {
    predicate Possible() {
      AllPossible(monitors)
    }
  }

  predicate AllPossible(calls: seq<MonitorCall>) {
    forall i :: 0 <= i < |calls| ==> calls[i].Possible()
  }

  type Monitors = PerZone<Monitor>

  predicate EveryPossible(turns: seq<Turn>) {
    forall i :: 0 <= i < |turns| ==> turns[i].Possible()
  }

  function Internals(m: Monitors): Snapshot {
    PerZone(m.station.internal, m.liftHill.internal, m.ride.internal, m.preStation.internal)
  }

  function Monitored(lines: PerZone<Lines>, m: Monitors, call: MonitorCall): Monitors
    requires call.Possible()
  {
    Put(m, call.zone,
        PollStep(m.Get(call.zone), Observed(lines.Get(call.zone), call.brings)))
  }

  ghost function MonitoredAll(lines: PerZone<Lines>, m: Monitors, calls: seq<MonitorCall>): Monitors
    requires AllPossible(calls)
  {
    if calls == [] then m
    else Monitored(lines, MonitoredAll(lines, m, calls[..|calls| - 1]), calls[|calls| - 1])
  }

  ghost function MonitorsAfter(lines: PerZone<Lines>, m: Monitors, turns: seq<Turn>): Monitors
    requires EveryPossible(turns)
  {
    if turns == [] then m
    else MonitoredAll(lines, MonitorsAfter(lines, m, turns[..|turns| - 1]), turns[|turns| - 1].monitors)
  }

  /** The control cycles a run of turns amounts to. */
  ghost function CyclesOf(lines: PerZone<Lines>, m: Monitors, turns: seq<Turn>): seq<Cycle>
    requires EveryPossible(turns)
  {
    if turns == [] then []
    else
      var last := turns[|turns| - 1];
      CyclesOf(lines, m, turns[..|turns| - 1])
      + [Cycle(Internals(MonitorsAfter(lines, m, turns)), last.modeReply, last.startReply)]
  }

  class Controller {
    const liftHill: BrakeZone
    const ride: BrakeZone
    const preStation: BrakeZone
    const station: BrakeZone
    const ser: Serial
    var state: byte
    var releaseGo: byte

    ghost predicate Valid()
      reads this, liftHill, ride, preStation, station, ser
    {
      && liftHill != ride && liftHill != preStation && liftHill != station
      && ride != preStation && ride != station && preStation != station
      && liftHill.Valid() && ride.Valid() && preStation.Valid() && station.Valid() && ser.Valid()
    }

    ghost function Remembered(): Memory
      reads this
    {
      Memory(state, releaseGo)
    }

    ghost function MonitorStates(): Monitors
      reads liftHill, ride, preStation, station
    {
      PerZone(station.Machine(), liftHill.Machine(), ride.Machine(), preStation.Machine())
    }

    /** The control thread's own copies of the zone states. */
    ghost function ControlCopies(): Snapshot
      reads liftHill, ride, preStation, station
    {
      PerZone(station.state, liftHill.state, ride.state, preStation.state)
    }

    constructor ()
      ensures Valid() && Remembered() == BOOT && ser.sent == []
      ensures MonitorStates() == PerZone(POWERED_UP, POWERED_UP, POWERED_UP, POWERED_UP)
      ensures Lined() == PerZone(Lines(23, 7), Lines(22, 27), Lines(17, 25), Lines(12, 24))
    {
      preStation := new BrakeZone(Lines(12, 24), Empty);
      liftHill := new BrakeZone(Lines(22, 27), Empty);
      ride := new BrakeZone(Lines(17, 25), Empty);
      station := new BrakeZone(Lines(23, 7), Empty);
      ser := new Serial();
      state := STOP;
      releaseGo := 0;
    }

    ghost function Lined(): PerZone<Lines> {
      PerZone(station.sensorLines, liftHill.sensorLines, ride.sensorLines, preStation.sensorLines)
    }

    method UpdateBrakeZoneState()
      requires Valid()
      modifies liftHill`state, ride`state, preStation`state, station`state
      ensures Valid() && ControlCopies() == Internals(MonitorStates())
    {
      liftHill.UpdateState();
      ride.UpdateState();
      preStation.UpdateState();
      station.UpdateState();
    }

    method LiftHillAutomatic()
      requires ser.Valid()
      modifies ser
      ensures ser.Valid() && ser.sent == old(ser.sent) + Interlock.LiftHillAutomatic(ControlCopies())
    {
      hide EncodeAll;
      var hill := liftHill.GetState();
      var platform := station.GetState();
      var run := ride.GetState();
      if hill == Empty && platform == Entered {
        ser.LiftHillForward(255);
      } else if hill == Empty {
        ser.LiftHillStop();
      } else if hill == Entering {
        ser.LiftHillForward(255);
      } else if hill == Entered && run == Empty {
        ser.LiftHillForward(255);
      } else {
        ser.LiftHillStop();
      }
    }

    method LiftHillManual()
      requires ser.Valid()
      modifies ser
      ensures ser.Valid() && ser.sent == old(ser.sent) + Interlock.LiftHillManual(ControlCopies(), releaseGo)
    {
      hide EncodeAll;
      var hill := liftHill.GetState();
      var platform := station.GetState();
      var run := ride.GetState();
      if hill == Empty && platform == Entered && releaseGo != 0 {
        ser.LiftHillForward(255);
      } else if hill == Empty {
        ser.LiftHillStop();
      } else if hill == Entering {
        ser.LiftHillForward(255);
      } else if hill == Entered && run == Empty {
        ser.LiftHillForward(255);
      } else {
        ser.LiftHillStop();
      }
    }

    method StationAutomatic()
      requires ser.Valid()
      modifies ser, this`releaseGo
      ensures ser.Valid()
      ensures var d := Interlock.StationAutomatic(ControlCopies(), old(releaseGo));
              ser.sent == old(ser.sent) + d.sent && releaseGo == d.releaseGo
    {
      hide EncodeAll;
      var platform := station.GetState();
      var pre := preStation.GetState();
      var hill := liftHill.GetState();
      if platform == Empty && pre == Entered {
        ser.StationForward(128);
      } else if platform == Empty {
        ser.StopStation();
      } else if platform == Entering {
        ser.StationForward(128);
      } else if platform == Entered && hill == Empty {
        ser.StationForward(128);
      } else {
        releaseGo := 0;
        ser.StationForward(0);
      }
    }

    method StationManual(startReply: seq<byte>)
      requires ser.Valid()
      modifies ser, this`releaseGo
      ensures ser.Valid()
      ensures var d := Interlock.StationManual(ControlCopies(), old(releaseGo), StartFromReply(1, startReply));
              ser.sent == old(ser.sent) + d.sent && releaseGo == d.releaseGo
    {
      hide EncodeAll;
      var platform := station.GetState();
      var pre := preStation.GetState();
      var hill := liftHill.GetState();
      if platform == Empty && pre == Entered {
        ser.StationForward(128);
      } else if platform == Empty {
        ser.StopStation();
      } else if platform == Entering {
        ser.StationForward(128);
      } else if platform == Entered && hill == Empty {
        if releaseGo == 0 {
          releaseGo := ser.SendCanSend(1, startReply);
        }
        if releaseGo != 0 {
          ser.StationForward(128);
        } else {
          ser.StopStation();
        }
      } else {
        releaseGo := 0;
        ser.StationForward(0);
      }
    }

    method StationSafe()
      requires ser.Valid()
      modifies ser, this`releaseGo
      ensures ser.Valid()
      ensures var d := Interlock.StationSafe(ControlCopies(), old(releaseGo));
              ser.sent == old(ser.sent) + d.sent && releaseGo == d.releaseGo
    {
      hide EncodeAll;
      var platform := station.GetState();
      if platform == Empty {
        ser.StopStation();
      } else if platform == Entering {
        ser.StationForward(128);
      } else {
        releaseGo := 0;
        ser.StationForward(0);
      }
    }

    method PreStationRunning()
      requires ser.Valid()
      modifies ser
      ensures ser.Valid() && ser.sent == old(ser.sent) + Interlock.PreStationRunning(ControlCopies())
    {
      hide EncodeAll;
      var pre := preStation.GetState();
      var run := ride.GetState();
      var platform := station.GetState();
      if pre == Empty && run == Entered {
        ser.ReleasePreStation(PRESTATION_STOP);
      } else if pre == Empty {
        ser.StopPreStation();
      } else if pre == Entering {
        ser.ReleasePreStation(PRESTATION_STOP);
      } else if pre == Entered && platform == Empty {
        ser.ReleasePreStation(PRESTATION_GO);
      } else {
        ser.StopPreStation();
      }
    }

    method RideRunning()
      requires ser.Valid()
      modifies ser
      ensures ser.Valid() && ser.sent == old(ser.sent) + Interlock.RideRunning(ControlCopies())
    {
      hide EncodeAll;
      var run := ride.GetState();
      var hill := liftHill.GetState();
      var pre := preStation.GetState();
      if run == Empty && hill == Entered {
        ser.ReleaseRide(RIDE_STOP);
      } else if run == Empty {
        ser.StopRide();
      } else if run == Entering {
        ser.ReleaseRide(RIDE_STOP);
      } else if run == Entered && pre == Empty {
        ser.ReleaseRide(RIDE_GO);
      } else {
        ser.StopRide();
      }
    }

    method BrakesHalted()
      requires ser.Valid()
      modifies ser
      ensures ser.Valid()
      ensures ser.sent
              == old(ser.sent) + Interlock.PreStationHalted(ControlCopies()) + Interlock.RideHalted(ControlCopies())
    {
      hide EncodeAll;
      var pre := preStation.GetState();
      if pre == Empty {
        ser.StopPreStation();
      } else if pre == Entering {
        ser.ReleasePreStation(PRESTATION_STOP);
      }
      var run := ride.GetState();
      if run == Empty {
        ser.StopRide();
      } else if run == Entering {
        ser.ReleaseRide(RIDE_STOP);
      }
    }

    method LiftHillSafe()
      requires ser.Valid()
      modifies ser
      ensures ser.Valid() && ser.sent == old(ser.sent) + Interlock.LiftHillSafe(ControlCopies())
    {
      hide EncodeAll;
      var hill := liftHill.GetState();
      if hill == Empty {
        ser.LiftHillStop();
      } else if hill == Entered {
        ser.LiftHillStop();
      }
    }

    /** The branches of one cycle in AUTOMATIC and MANUAL. */
    method CommandRunning(startReply: seq<byte>)
      requires ser.Valid() && (state == AUTOMATIC || state == MANUAL)
      modifies ser, this`releaseGo
      ensures ser.Valid()
      ensures var d := Decide(state, ControlCopies(), old(releaseGo), StartFromReply(1, startReply));
              ser.sent == old(ser.sent) + d.sent && releaseGo == d.releaseGo
    {
      hide EncodeAll, StartFromReply, Interlock.LiftHillAutomatic, Interlock.LiftHillManual,
           Interlock.StationAutomatic, Interlock.StationManual, Interlock.PreStationRunning, Interlock.RideRunning;
      if state == AUTOMATIC {
        LiftHillAutomatic();
        StationAutomatic();
      } else {
        LiftHillManual();
        StationManual(startReply);
      }
      PreStationRunning();
      RideRunning();
    }

    /** The branches of one cycle in STOP and RETURN_TO_SAFE. */
    method CommandHalted(startReply: seq<byte>)
      requires ser.Valid() && (state == STOP || state == RETURN_TO_SAFE)
      modifies ser, this`releaseGo
      ensures ser.Valid()
      ensures var d := Decide(state, ControlCopies(), old(releaseGo), StartFromReply(1, startReply));
              ser.sent == old(ser.sent) + d.sent && releaseGo == d.releaseGo
    {
      hide EncodeAll, StartFromReply, Interlock.LiftHillSafe, Interlock.StationSafe, PreStationHalted, RideHalted;
      if state == STOP {
        ser.LiftHillStop();
        ser.StopStation();
        releaseGo := 0;
      } else {
        LiftHillSafe();
        StationSafe();
      }
      BrakesHalted();
    }

    /** MAINTENANCE, and numbers that are no mode, command nothing. */
    static lemma NothingDecided(mode: byte, zones: Snapshot, releaseGo: byte, reply: byte)
      ensures mode == MAINTENANCE || mode > RETURN_TO_SAFE ==>
                Decide(mode, zones, releaseGo, reply) == Decision([], releaseGo)
    {
    }

    /** The branches of one cycle, in whatever mode. */
    method Command(startReply: seq<byte>)
      requires ser.Valid()
      modifies ser, this`releaseGo
      ensures ser.Valid()
      ensures var d := Decide(state, ControlCopies(), old(releaseGo), StartFromReply(1, startReply));
              ser.sent == old(ser.sent) + d.sent && releaseGo == d.releaseGo
    {
      hide EncodeAll, StartFromReply, Decide;
      NothingDecided(state, ControlCopies(), releaseGo, StartFromReply(1, startReply));
      if state == AUTOMATIC || state == MANUAL {
        CommandRunning(startReply);
      } else if state == MAINTENANCE {
        return;
      } else if state == STOP || state == RETURN_TO_SAFE {
        CommandHalted(startReply);
      }
    }

    method ControlCycle(modeReply: seq<byte>, startReply: seq<byte>)
      requires Valid()
      modifies this, ser, liftHill`state, ride`state, preStation`state, station`state
      ensures Valid()
      ensures var c := Cycle(Internals(old(MonitorStates())), modeReply, startReply);
              && Remembered() == AfterCycle(old(Remembered()), c)
              && ser.sent == old(ser.sent) + SentIn(old(Remembered()), c)
    {
      hide EncodeAll, Run, Overlay, Decide, StartFromReply;
      UpdateBrakeZoneState();
      var tmpState := ser.UpdateCoasterState(modeReply);
      if tmpState != 255 {
        state := tmpState;
      }
      ghost var m := old(Remembered());
      ghost var c := Cycle(Internals(old(MonitorStates())), modeReply, startReply);
      assert state == ModeIn(m, c) && ControlCopies() == c.zones;
      Command(startReply);
    }

    method RunMonitor(call: MonitorCall)
      requires Valid() && call.Possible()
      modifies liftHill, ride, preStation, station
      modifies liftHill.eventBuff, ride.eventBuff, preStation.eventBuff, station.eventBuff
      modifies liftHill.eventBuff.events, ride.eventBuff.events, preStation.eventBuff.events, station.eventBuff.events
      modifies liftHill.eventBuff.eventData, ride.eventBuff.eventData
      modifies preStation.eventBuff.eventData, station.eventBuff.eventData
      ensures Valid() && MonitorStates() == Monitored(Lined(), old(MonitorStates()), call)
      ensures ControlCopies() == old(ControlCopies())
    {
      hide PollStep, Run, Observed, EncodeAll;
      match call.zone {
        case Station => station.UpdateInternalState(call.brings.ready, call.brings.rd, call.brings.received);
        case LiftHill => liftHill.UpdateInternalState(call.brings.ready, call.brings.rd, call.brings.received);
        case Ride => ride.UpdateInternalState(call.brings.ready, call.brings.rd, call.brings.received);
        case PreStation => preStation.UpdateInternalState(call.brings.ready, call.brings.rd, call.brings.received);
      }
    }

    /** Monitor calls, in any order, between two turns of the control loop. */
    method RunMonitors(calls: seq<MonitorCall>)
      requires Valid() && AllPossible(calls)
      modifies liftHill, ride, preStation, station
      modifies liftHill.eventBuff, ride.eventBuff, preStation.eventBuff, station.eventBuff
      modifies liftHill.eventBuff.events, ride.eventBuff.events, preStation.eventBuff.events, station.eventBuff.events
      modifies liftHill.eventBuff.eventData, ride.eventBuff.eventData
      modifies preStation.eventBuff.eventData, station.eventBuff.eventData
      ensures Valid() && MonitorStates() == MonitoredAll(Lined(), old(MonitorStates()), calls)
      ensures ControlCopies() == old(ControlCopies())
    {
      hide Monitored;
      var i := 0;
      while i < |calls|
        invariant 0 <= i <= |calls| && Valid() && ControlCopies() == old(ControlCopies())
        invariant MonitorStates() == MonitoredAll(Lined(), old(MonitorStates()), calls[..i])
      {
        assert calls[..i + 1][..i] == calls[..i];
        RunMonitor(calls[i]);
        i := i + 1;
      }
      assert calls[..i] == calls;
    }

    /** What the monitors do up to the next control cycle, and that cycle. */
    method TakeTurn(turn: Turn)
      requires Valid() && turn.Possible()
      modifies this, ser, liftHill, ride, preStation, station
      modifies liftHill.eventBuff, ride.eventBuff, preStation.eventBuff, station.eventBuff
      modifies liftHill.eventBuff.events, ride.eventBuff.events, preStation.eventBuff.events, station.eventBuff.events
      modifies liftHill.eventBuff.eventData, ride.eventBuff.eventData
      modifies preStation.eventBuff.eventData, station.eventBuff.eventData
      ensures Valid() && MonitorStates() == MonitoredAll(Lined(), old(MonitorStates()), turn.monitors)
      ensures var c := Cycle(Internals(MonitorStates()), turn.modeReply, turn.startReply);
              && Remembered() == AfterCycle(old(Remembered()), c)
              && ser.sent == old(ser.sent) + SentIn(old(Remembered()), c)
    {
      hide AfterCycle, SentIn, MonitoredAll, EncodeAll, Run;
      RunMonitors(turn.monitors);
      ControlCycle(turn.modeReply, turn.startReply);
    }

    /** The control loop: every turn acts on the modes, zones and answers of that turn, in order. */
    method ControlRollerCoaster(turns: seq<Turn>)
      requires Valid() && EveryPossible(turns)
      modifies this, ser, liftHill, ride, preStation, station
      modifies liftHill.eventBuff, ride.eventBuff, preStation.eventBuff, station.eventBuff
      modifies liftHill.eventBuff.events, ride.eventBuff.events, preStation.eventBuff.events, station.eventBuff.events
      modifies liftHill.eventBuff.eventData, ride.eventBuff.eventData
      modifies preStation.eventBuff.eventData, station.eventBuff.eventData
      ensures Valid()
      ensures var cs := CyclesOf(Lined(), old(MonitorStates()), turns);
              && Remembered() == MemoryAfter(old(Remembered()), cs)
              && ser.sent == old(ser.sent) + SentOver(old(Remembered()), cs)
      ensures MonitorStates() == MonitorsAfter(Lined(), old(MonitorStates()), turns)
    {
      hide AfterCycle, SentIn, MonitoredAll, Valid, MonitorsAfter, CyclesOf, MemoryAfter, SentOver;
      ghost var lines := Lined();
      ghost var start, m, log := MonitorStates(), Remembered(), ser.sent;
      NoTurns(lines, start, m);
      assert turns[..0] == [];
      var i := 0;
      while i < |turns|
        invariant 0 <= i <= |turns| && Valid()
        invariant MonitorStates() == MonitorsAfter(lines, start, turns[..i])
        invariant Remembered() == MemoryAfter(m, CyclesOf(lines, start, turns[..i]))
        invariant ser.sent == log + SentOver(m, CyclesOf(lines, start, turns[..i]))
      {
        TakeTurn(turns[i]);
        OneMoreTaken(lines, start, m, turns, i);
        i := i + 1;
      }
      assert turns[..i] == turns;
    }
  }

  lemma NoTurns(lines: PerZone<Lines>, start: Monitors, m: Memory)
    ensures MonitorsAfter(lines, start, []) == start && CyclesOf(lines, start, []) == []
    ensures MemoryAfter(m, CyclesOf(lines, start, [])) == m && SentOver(m, CyclesOf(lines, start, [])) == []
  {
  }

  /** What turn `i` adds to the first `i`. */
  lemma OneMoreTaken(lines: PerZone<Lines>, start: Monitors, m: Memory, turns: seq<Turn>, i: nat)
    requires i < |turns| && EveryPossible(turns)
    ensures var monitors := MonitorsAfter(lines, start, turns[..i + 1]);
            var c := Cycle(Internals(monitors), turns[i].modeReply, turns[i].startReply);
            var before, after := CyclesOf(lines, start, turns[..i]), CyclesOf(lines, start, turns[..i + 1]);
            && monitors == MonitoredAll(lines, MonitorsAfter(lines, start, turns[..i]), turns[i].monitors)
            && MemoryAfter(m, after) == AfterCycle(MemoryAfter(m, before), c)
            && SentOver(m, after) == SentOver(m, before) + SentIn(MemoryAfter(m, before), c)
  {
    assert turns[..i] + [turns[i]] == turns[..i + 1];
    hide AfterCycle, SentIn, MonitoredAll, MonitorsAfter, CyclesOf, MemoryAfter, SentOver;
    OneMoreTurn(lines, start, turns[..i], turns[i]);
    OneMoreCycle(m, CyclesOf(lines, start, turns[..i]),
                 Cycle(Internals(MonitorsAfter(lines, start, turns[..i + 1])), turns[i].modeReply,
                     turns[i].startReply));
  }

  lemma OneMoreTurn(lines: PerZone<Lines>, m: Monitors, turns: seq<Turn>, turn: Turn)
    requires EveryPossible(turns) && turn.Possible()
    ensures EveryPossible(turns + [turn])
    ensures MonitorsAfter(lines, m, turns + [turn])
            == MonitoredAll(lines, MonitorsAfter(lines, m, turns), turn.monitors)
    ensures CyclesOf(lines, m, turns + [turn]) == CyclesOf(lines, m, turns)
            + [Cycle(Internals(MonitorsAfter(lines, m, turns + [turn])), turn.modeReply, turn.startReply)]
  {
    assert (turns + [turn])[..|turns|] == turns;
  }

  lemma OneMoreCycle(m: Memory, cs: seq<Cycle>, c: Cycle)
    ensures MemoryAfter(m, cs + [c]) == AfterCycle(MemoryAfter(m, cs), c)
    ensures SentOver(m, cs + [c]) == SentOver(m, cs) + SentIn(MemoryAfter(m, cs), c)
  {
    hide AfterCycle, SentIn;
    assert (cs + [c])[..|cs|] == cs;
  }
}
