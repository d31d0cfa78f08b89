/** A concrete joint run in which an emergency stop leaves the lift hill motor running. */
module EstopWitness {
  import opened Coaster
  import opened Interlock
  import opened InterlockRuns
  import opened SerialLink
  import opened Firmware
  import Traces = FirmwareTraces
  import opened LinkRefinement
  import opened JointRuns

  /** The ignition on, ACKNOWLEDGE pressed, everything else at rest. */
  const ON: Samples := Samples(
    true, false, false, false, false, true, true, false, false, false, false, true,
    false, false, false, false, false, false, false)

  /** The ignition off and ESTOP pressed. */
  const OFF: Samples := Samples(
    false, true, false, false, false, false, false, true, true, true, false, false,
    false, false, false, false, false, false, false)

  const HILL_ENTERING: Snapshot := PerZone(Empty, Entering, Empty, Empty)

  const AT_REST: Actuators := PerZone(0, 0, RIDE_STOP, PRESTATION_STOP)

  const AT_POWER_ON: Joint := Joint(BOOT, Progress(POWER_ON, [], AFTER_SETUP, [], false))

  /** `n` iterations that read `s`, each with a look at the line. */
  function Looking(n: nat, s: Samples): (slots: seq<Slot>)
    ensures |slots| == n && Looks(slots) == n
  {
    if n == 0 then [] else [Slot(true, s)] + Looking(n - 1, s)
  }

  /** Acknowledged, then AUTOMATIC, a train on its way up the hill; at the end the ignition goes off and ESTOP on. */
  const RUNNING: Exchange :=
    Exchange(HILL_ENTERING, [Slot(false, ON), Slot(true, ON)], 1, [], 0, Looking(40, ON) + [Slot(false, OFF)])

  /** The next cycle, with ESTOP pressed all the time. */
  const STOPPED: Exchange := Exchange(HILL_ENTERING, Looking(1, OFF), 1, [], 0, Looking(40, OFF))

  // ------------------------------------------------------------------------------ small steps

  lemma {:induction false} RunFurther(p: Progress, slots: seq<Slot>, more: seq<Slot>)
    ensures RunFirmware(p, slots + more) == RunFirmware(RunFirmware(p, slots), more)
    decreases slots
  {
    hide Advance;
    if slots == [] {
      assert slots + more == more;
    } else {
      assert (slots + more)[1..] == slots[1..] + more;
      RunFurther(Advance(p, slots[0]), slots[1..], more);
    }
  }

  predicate Automatic(l: Latches) {
    !l.returnToSafe && !l.recoverEstop
  }

  lemma OnStep(p: Progress, slot: Slot)
    requires Automatic(p.latches) && slot.samples == ON
    ensures ModeOf(p.latches, ON) == AUTOMATIC && Tick(p.latches, ON) == p.latches
    ensures Automatic(Advance(p, slot).latches)
  {
    hide Collect, WritesOf, ReplyOf, DriveAll;
  }

  lemma {:induction false} OnWindow(p: Progress, n: nat)
    requires Automatic(p.latches)
    ensures Automatic(RunFirmware(p, Looking(n, ON)).latches) && NoMaintenance(p.latches, Looking(n, ON))
    decreases n
  {
    hide Advance, Automatic, ModeOf, Tick;
    if n > 0 {
      assert Looking(n, ON)[1..] == Looking(n - 1, ON);
      OnStep(p, Slot(true, ON));
      OnWindow(Advance(p, Slot(true, ON)), n - 1);
      OnCommands(p.latches, n - 1);
    }
  }

  lemma {:induction false} OnCommands(l: Latches, n: nat)
    requires Automatic(l)
    ensures NoMaintenance(l, Looking(n, ON))
  {
    hide Automatic, ModeOf, Tick;
    if n > 0 {
      assert Looking(n, ON)[1..] == Looking(n - 1, ON);
      OnStep(Progress(l, [], AFTER_SETUP, [], false), Slot(true, ON));
      OnCommands(l, n - 1);
    }
  }

  lemma {:induction false} FrameLengths(ms: seq<Coaster.Message>)
    ensures |EncodeAll(ms)| <= 5 * |ms|
  {
    if ms != [] {
      FrameLengths(ms[1..]);
      hide EncodeAll;
      assert |Encode(ms[0])| == |Payload(ms[0])| + 2;
    }
  }

  /** Enough looks empty the line. */
  lemma Drains(f: Progress, ms: seq<Coaster.Message>, a: Actuators, ns: seq<Coaster.Message>, slots: seq<Slot>)
    requires OnLine(f, ms, a) && NoMaintenance(f.latches, slots) && |f.rx| + 5 * |ns| <= Looks(slots)
    ensures Window(f, ns, slots).rx == [] && !Window(f, ns, slots).stuck
  {
    FrameLengths(ns);
    var k: nat :| Reached(f, ms, a, k);
    var p := f.(rx := f.rx + EncodeAll(ns));
    hide Pending, Realises, ObeyAll, EncodeAll, NoMaintenance, Looks, RunFirmware;
    MoreWaiting(f.rx, ms[k..], ns);
    EverythingIsRead(p, slots, ms[k..] + ns);
    ObeysInOrder(p, slots, ms[k..] + ns, ObeyAll(ms[..k], a));
  }

  /** The firmware with a poll just written to it. */
  function PollWritten(f: Progress): Progress {
    f.(rx := f.rx + EncodeAll([RequestButtonState]))
  }

  /** With the line empty, a poll is answered in the first look. */
  lemma AnsweredAtOnce(f: Progress, s: Samples)
    requires !f.stuck && f.rx == [] && f.replies == []
    ensures RunFirmware(PollWritten(f), [Slot(true, s)]).replies == [SEND_BUTTON_STATE, ModeOf(f.latches, s)]
  {
    var p, slot := PollWritten(f), Slot(true, s);
    assert EncodeAll([RequestButtonState]) == Encode(RequestButtonState) + EncodeAll([]);
    assert p.rx == Encode(RequestButtonState) + [];
    MessageGetsThrough(RequestButtonState, []);
    assert [slot][1..] == [];
    assert RunFirmware(p, [slot]) == Advance(p, slot);
    hide Collect, ModeOf, Tick, WritesOf, DriveAll, Encode, EncodeAll;
  }

  /** Messages that ask nothing are answered nothing. */
  lemma NothingAnswered(f: Progress, ms: seq<Coaster.Message>, slots: seq<Slot>)
    requires !f.stuck && f.replies == [] && Pending(f.rx, []) && NobodyAsks(ms)
    ensures Window(f, ms, slots).replies == []
  {
    var p := f.(rx := f.rx + EncodeAll(ms));
    hide RunFirmware, Traces.IterationMode, AnswersOf, Pending, EncodeAll;
    MoreWaiting(f.rx, [], ms);
    assert [] + ms == ms;
    var at := AnswersInOrder(p, slots, ms);
    NoAnswers(ms[..|at|], f.latches, Switches(slots), at);
  }

  lemma {:induction false} LineShrinks(p: Progress, slots: seq<Slot>)
    ensures |RunFirmware(p, slots).rx| <= |p.rx|
    decreases slots
  {
    if slots != [] {
      LineShrinks(Advance(p, slots[0]), slots[1..]);
      if p.rx != [] {
        Traces.CollectShrinks(p.rx);
      }
      hide Collect, ModeOf, Tick, WritesOf, ReplyOf, DriveAll;
    }
  }

  // -------------------------------------------------------------------------- the first cycle

  /** The firmware once acknowledged, the first poll on the line. */
  const ACKNOWLEDGED: Progress := AT_POWER_ON.firmware.(latches := Latches(false, false))

  lemma Acknowledges()
    ensures Advance(PollWritten(AT_POWER_ON.firmware), Slot(false, ON)) == PollWritten(ACKNOWLEDGED)
    ensures ModeOf(POWER_ON, ON) == RETURN_TO_SAFE && Tick(POWER_ON, ON) == Latches(false, false)
    ensures ModeOf(Latches(false, false), ON) == AUTOMATIC
  {
    hide EncodeAll;
  }

  lemma FirstPoll()
    ensures var f := AfterPoll(AT_POWER_ON, RUNNING);
            && Automatic(f.latches) && OnLine(f, [RequestButtonState], AT_REST) && |f.rx| <= 3
            && f.replies == [SEND_BUTTON_STATE, AUTOMATIC] && Pending(f.rx, [])
    ensures NoMaintenance(POWER_ON, RUNNING.poll)
  {
    var p, slots := PollWritten(AT_POWER_ON.firmware), RUNNING.poll;
    assert slots[1..] == [Slot(true, ON)] && slots[0] == Slot(false, ON);
    Acknowledges();
    AnsweredAtOnce(ACKNOWLEDGED, ON);
    assert RunFirmware(p, slots) == RunFirmware(PollWritten(ACKNOWLEDGED), [Slot(true, ON)]);
    OnCommands(Latches(false, false), 1);
    assert Looking(1, ON) == [Slot(true, ON)];
    assert NoMaintenance(POWER_ON, slots);
    StartsOnLine();
    FrameLengths([RequestButtonState]);
    assert |p.rx| <= 3 by {
      assert EncodeAll([RequestButtonState]) == Encode(RequestButtonState) + EncodeAll([]);
    }
    hide Advance, EncodeAll, OnLine, NoMaintenance, Automatic, ModeOf, Tick, RunFirmware, Pending;
    WindowOnLine(AT_POWER_ON.firmware, [], AT_REST, [RequestButtonState], slots);
    assert [] + [RequestButtonState] == [RequestButtonState];
    LineShrinks(p, slots);
    FirstLatches(PollWritten(ACKNOWLEDGED));
    NothingPending([]);
    PollAnswered(AT_POWER_ON.firmware, [], slots);
  }

  lemma FirstLatches(p: Progress)
    requires Automatic(p.latches)
    ensures Automatic(RunFirmware(p, [Slot(true, ON)]).latches)
  {
    OnWindow(p, 1);
    assert Looking(1, ON) == [Slot(true, ON)];
    hide Advance, Automatic;
  }

  lemma StartsOnLine()
    ensures OnLine(AT_POWER_ON.firmware, [], AT_REST)
  {
    NothingPending([]);
    assert Reached(AT_POWER_ON.firmware, [], AT_REST, 0);
  }

  lemma HeardAutomatic()
    ensures Heard(STOP, ModeReply(AT_POWER_ON, RUNNING)) == AUTOMATIC
  {
    FirstPoll();
    SaysMode(STOP, AUTOMATIC);
    hide AfterPoll, Heard;
  }

  lemma SaysMode(state: byte, mode: byte)
    requires mode != 255
    ensures ModeFromReply([SEND_BUTTON_STATE, mode]) == mode && Heard(state, [SEND_BUTTON_STATE, mode]) == mode
  {
    FirstDecides([SEND_BUTTON_STATE, mode], []);
  }

  /** A cycle in AUTOMATIC or RETURN_TO_SAFE asks for no start, and sends at most five messages. */
  lemma NothingAsked(j: Joint, x: Exchange, mode: byte)
    requires Heard(j.memory.state, ModeReply(j, x)) == mode && (mode == AUTOMATIC || mode == RETURN_TO_SAFE)
    ensures OpeningOf(j, x) == [] && |Remaining(j, x)| <= 4 && NobodyAsks(Remaining(j, x))
  {
    SentFew(mode, x.zones, j.memory.releaseGo, StartFromReply(1, CycleIn(j, x).startReply));
    hide Heard, ModeReply, StartFromReply, AfterAsking, Decide;
  }

  lemma SentFew(mode: byte, zones: Snapshot, releaseGo: byte, reply: byte)
    requires mode == AUTOMATIC || mode == RETURN_TO_SAFE
    ensures var sent := Decide(mode, zones, releaseGo, reply).sent; |sent| <= 4 && NobodyAsks(sent)
  {
    SentHere(zones, releaseGo);
    hide LiftHillAutomatic, StationAutomatic, PreStationRunning, RideRunning, LiftHillSafe, StationSafe,
         PreStationHalted, RideHalted;
  }

  /** Each section outside MANUAL sends at most one message, and asks nothing. */
  lemma SentHere(z: Snapshot, go: byte)
    ensures |LiftHillAutomatic(z)| <= 1 && NobodyAsks(LiftHillAutomatic(z))
    ensures |LiftHillSafe(z)| <= 1 && NobodyAsks(LiftHillSafe(z))
    ensures |StationAutomatic(z, go).sent| <= 1 && NobodyAsks(StationAutomatic(z, go).sent)
    ensures |StationSafe(z, go).sent| <= 1 && NobodyAsks(StationSafe(z, go).sent)
    ensures |PreStationRunning(z)| <= 1 && NobodyAsks(PreStationRunning(z))
    ensures |PreStationHalted(z)| <= 1 && NobodyAsks(PreStationHalted(z))
    ensures |RideRunning(z)| <= 1 && NobodyAsks(RideRunning(z))
    ensures |RideHalted(z)| <= 1 && NobodyAsks(RideHalted(z))
  {
  }

  /** The state between the two cycles. */
  const BETWEEN: Joint := AfterExchange(AT_POWER_ON, RUNNING)

  lemma NoAsking(j: Joint, x: Exchange)
    requires OpeningOf(j, x) == [] && x.ask == []
    ensures AfterGrant(j, x) == AfterHearing(j, x)
  {
    var f := AfterHearing(j, x);
    hide AfterHearing, OpeningOf;
    assert f.rx + EncodeAll([]) == f.rx;
  }

  lemma OffLatches(f: Progress)
    requires Automatic(f.latches) && !f.stuck
    ensures var q := Advance(f, Slot(false, OFF));
            && q.latches == Latches(true, true) && q.rx == f.rx && q.replies == f.replies && !q.stuck
            && ModeOf(f.latches, OFF) == RETURN_TO_SAFE
  {
    hide Collect, DriveAll;
  }

  lemma {:induction false} CommandsJoin(l: Latches, n: nat)
    requires Automatic(l)
    ensures NoMaintenance(l, Looking(n, ON) + [Slot(false, OFF)])
    decreases n
  {
    var slots := Looking(n, ON) + [Slot(false, OFF)];
    OnStep(Progress(l, [], AFTER_SETUP, [], false), Slot(true, ON));
    OffLatches(Progress(l, [], AFTER_SETUP, [], false));
    hide Automatic, ModeOf, Tick;
    if n == 0 {
      assert slots[1..] == [];
    } else {
      assert Looking(n, ON)[1..] == Looking(n - 1, ON);
      assert slots[1..] == Looking(n - 1, ON) + [Slot(false, OFF)];
      CommandsJoin(l, n - 1);
    }
  }

  lemma FirstCycle()
    ensures var f := BETWEEN.firmware;
            && f.latches == Latches(true, true) && f.rx == [] && f.replies == [] && !f.stuck
            && BETWEEN.memory.state == AUTOMATIC
    ensures Commanding(AT_POWER_ON, RUNNING)
  {
    FirstPoll();
    HeardAutomatic();
    NothingAsked(AT_POWER_ON, RUNNING, AUTOMATIC);
    NoAsking(AT_POWER_ON, RUNNING);
    var g := AfterGrant(AT_POWER_ON, RUNNING);
    assert g == AfterPoll(AT_POWER_ON, RUNNING).(replies := []) by {
      hide AfterPoll;
    }
    CommandsJoin(g.latches, 40);
    OnCommands(g.latches, 40);
    var sent := Remaining(AT_POWER_ON, RUNNING);
    TakingOnLine(AfterPoll(AT_POWER_ON, RUNNING), [RequestButtonState], AT_REST, 1);
    Drains(g, [RequestButtonState], AT_REST, sent, Looking(40, ON));
    OnWindow(g.(rx := g.rx + EncodeAll(sent)), 40);
    RunFurther(g.(rx := g.rx + EncodeAll(sent)), Looking(40, ON), [Slot(false, OFF)]);
    OffLatches(Window(g, sent, Looking(40, ON)));
    NotStuck(g, [RequestButtonState], AT_REST);
    NothingAnswered(g, sent, Looking(40, ON));
    hide AfterPoll, AfterAsking, Remaining, NoMaintenance, EncodeAll, Advance, OnLine, Heard, Decide, OpeningOf,
         Pending, NobodyAsks;
    assert BETWEEN.firmware == Advance(Window(g, sent, Looking(40, ON)), Slot(false, OFF));
  }

  lemma NotStuck(f: Progress, ms: seq<Coaster.Message>, a: Actuators)
    requires OnLine(f, ms, a)
    ensures !f.stuck
  {
  }

  // ------------------------------------------------------------------------- the second cycle

  /** What the first cycle sent, and where it leaves the hill motor. */
  lemma HillRunning()
    ensures var sent := SentIn(BOOT, CycleIn(AT_POWER_ON, RUNNING));
            ObeyAll(sent, AT_REST).liftHill == 255 && OnLine(BETWEEN.firmware, sent, AT_REST)
  {
    HeardAutomatic();
    FirstCycle();
    StartsOnLine();
    var c := CycleIn(AT_POWER_ON, RUNNING);
    assert ModeIn(BOOT, c) == AUTOMATIC;
    CycleEffectWithPoll(BOOT, c, AT_REST);
    CycleEffect(AUTOMATIC, c.zones, 0, StartFromReply(1, c.startReply), AT_REST);
    hide OnLine, Commanding, CycleIn, AfterExchange, Heard, ModeReply, Decide, StartFromReply, SentIn;
    ExchangeOnLine(AT_POWER_ON, RUNNING, [], AT_REST);
    assert [] + SentIn(BOOT, c) == SentIn(BOOT, c);
  }

  lemma {:induction false} OffStays(n: nat)
    ensures AllStayLatched(Looking(n, OFF), RETURN_TO_SAFE)
    ensures forall i :: 0 <= i < n ==> Traces.EstopHeld(Looking(n, OFF)[i].samples)
  {
    if n > 0 {
      OffStays(n - 1);
    }
  }

  lemma StoppedStays()
    ensures ExchangeLatched(STOPPED, RETURN_TO_SAFE) && RunLatched([STOPPED], RETURN_TO_SAFE)
  {
    OffStays(1);
    OffStays(40);
  }

  lemma HearsReturnToSafe()
    ensures HeardIn(BETWEEN, [STOPPED], 0) == RETURN_TO_SAFE
    ensures Heard(AUTOMATIC, ModeReply(BETWEEN, STOPPED)) == RETURN_TO_SAFE
  {
    FirstCycle();
    hide AfterExchange;
    AnsweredAtOnce(BETWEEN.firmware, OFF);
    assert Looking(1, OFF) == [Slot(true, OFF)] && STOPPED.poll == [Slot(true, OFF)];
    assert ModeOf(BETWEEN.firmware.latches, OFF) == RETURN_TO_SAFE;
    assert [STOPPED][..0] == [] && RunJoint(BETWEEN, []) == BETWEEN;
    SaysMode(AUTOMATIC, RETURN_TO_SAFE);
    assert ModeReply(BETWEEN, STOPPED) == [SEND_BUTTON_STATE, RETURN_TO_SAFE] by {
      hide ModeOf, RunFirmware, EncodeAll;
    }
    hide ModeReply, ModeFromReply, Heard, RunJoint, ModeOf;
  }

  lemma SecondCycleDrains()
    ensures AfterExchange(BETWEEN, STOPPED).firmware.rx == [] && !AfterExchange(BETWEEN, STOPPED).firmware.stuck
    ensures LatchedIn(AfterExchange(BETWEEN, STOPPED).firmware.latches, RETURN_TO_SAFE)
  {
    FirstCycle();
    StoppedStays();
    HearsReturnToSafe();
    HillRunning();
    var j, x := BETWEEN, STOPPED;
    assert LatchedIn(j.firmware.latches, RETURN_TO_SAFE);
    NothingAsked(j, x, RETURN_TO_SAFE);
    NoAsking(j, x);
    LatchedExchange(j, x, RETURN_TO_SAFE);
    var sent := SentIn(BOOT, CycleIn(AT_POWER_ON, RUNNING));
    assert NoMaintenance(j.firmware.latches, x.poll) && NoMaintenance(AfterGrant(j, x).latches, x.rest);
    FrameLengths([RequestButtonState]);
    hide AfterPoll, AfterAsking, Remaining, NoMaintenance, EncodeAll, OnLine, Heard, OpeningOf, LatchedIn, SentIn,
         CycleIn, StartTaken;
    WindowOnLine(j.firmware, sent, AT_REST, [RequestButtonState], x.poll);
    PollShrinks(j, x);
    TakingOnLine(AfterPoll(j, x), sent + [RequestButtonState], AT_REST, 1);
    Drains(AfterGrant(j, x), sent + [RequestButtonState], AT_REST, Remaining(j, x), x.rest);
  }

  lemma PollShrinks(j: Joint, x: Exchange)
    ensures AfterPoll(j, x) == Window(j.firmware, [RequestButtonState], x.poll)
    ensures |AfterPoll(j, x).rx| <= |j.firmware.rx| + |EncodeAll([RequestButtonState])|
  {
    LineShrinks(PollWritten(j.firmware), x.poll);
    hide RunFirmware, EncodeAll;
  }

  /**
   * An emergency stop can leave the hill motor running. From power-on: acknowledged, in AUTOMATIC, a
   * train on its way up the hill; then the ignition goes off and ESTOP is pressed. ESTOP is held for
   * all of the next cycle, in which the Pi hears the firmware and every byte it sends is read; at the
   * end the hill pin still stands at 255.
   */
  lemma EstopCanLeaveTheHillRunning()
    ensures var end := RunJoint(AT_POWER_ON, [RUNNING, STOPPED]);
            && end.firmware.latches.returnToSafe && end.firmware.rx == [] && !end.firmware.stuck
            && end.memory.state == RETURN_TO_SAFE && end.firmware.board.dcHill == 255
    ensures HeardIn(BETWEEN, [STOPPED], 0) == RETURN_TO_SAFE
    ensures forall slot :: slot in STOPPED.poll + STOPPED.ask + STOPPED.rest ==> Traces.EstopHeld(slot.samples)
  {
    HeldAllAlong();
    var sent := SentIn(BOOT, CycleIn(AT_POWER_ON, RUNNING));
    Unread();
    hide *;
    FirstCycle();
    HillRunning();
    StoppedStays();
    HearsReturnToSafe();
    SecondCycleDrains();
    TwoCycles();
    NotClear();
    SafeAtTheEnd(AfterExchange(BETWEEN, STOPPED).firmware.latches);
    SafeMotorsExactly(BETWEEN, [STOPPED], 0, sent, AT_REST);
    NothingBefore(BETWEEN.memory, ObeyAll(sent, AT_REST), JointCycles(BETWEEN, [STOPPED]));
  }

  lemma Unread()
    ensures OnlyNews(BETWEEN, [STOPPED], 0) && WholeAnswers(BETWEEN.firmware.replies)
    ensures HeardIn(BETWEEN, [STOPPED], 0) == RETURN_TO_SAFE ==> !HearsNothing(BETWEEN, [STOPPED], 0)
  {
    FirstCycle();
    hide AfterExchange, HeardIn;
  }

  lemma HeldAllAlong()
    ensures forall slot :: slot in STOPPED.poll + STOPPED.ask + STOPPED.rest ==> Traces.EstopHeld(slot.samples)
  {
    OffStays(1);
    OffStays(40);
    hide Looking, Traces.EstopHeld;
  }

  lemma NothingBefore(m: Memory, a: Actuators, cs: seq<Cycle>)
    ensures ActuatorsAfter(m, a, cs[..0]) == a
  {
  }

  lemma OneOf(j: Joint, x: Exchange)
    ensures RunJoint(j, [x]) == AfterExchange(j, x)
  {
    assert [x][..0] == [];
    hide AfterExchange;
  }

  lemma TwoOf(j: Joint, x: Exchange, y: Exchange)
    ensures RunJoint(j, [x, y]) == AfterExchange(AfterExchange(j, x), y)
  {
    OneOf(j, x);
    assert [x, y][..1] == [x];
    hide AfterExchange;
  }

  lemma TwoCycles()
    ensures RunJoint(AT_POWER_ON, [RUNNING, STOPPED]) == AfterExchange(BETWEEN, STOPPED)
    ensures RunJoint(BETWEEN, [STOPPED]) == AfterExchange(BETWEEN, STOPPED)
  {
    assert BETWEEN == AfterExchange(AT_POWER_ON, RUNNING) by {
      hide AfterExchange;
    }
    TwoOf(AT_POWER_ON, RUNNING, STOPPED);
    OneOf(BETWEEN, STOPPED);
    hide RunJoint, AfterExchange;
  }

  lemma SafeAtTheEnd(l: Latches)
    requires LatchedIn(l, RETURN_TO_SAFE)
    ensures l.returnToSafe
  {
  }

  lemma NotClear()
    ensures !HillSeenClear(JointCycles(BETWEEN, [STOPPED]), 0)
  {
    assert STOPPED.zones.liftHill == Entering;
    hide *;
    OneUnclear(BETWEEN, STOPPED);
  }

  lemma OneUnclear(j: Joint, x: Exchange)
    requires x.zones.liftHill == Entering
    ensures !HillSeenClear(JointCycles(j, [x]), 0)
  {
    assert [x][..0] == [];
    assert JointCycles(j, [x])[0].zones == x.zones;
    hide AfterExchange, ModeReply, AfterAsking, RunJoint;
  }
}
