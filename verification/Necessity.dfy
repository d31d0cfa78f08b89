/** What one broken hypothesis of the closed loop leads to: concrete runs, each allowed but for a single step. */
module Necessity {
  import opened Coaster
  import opened BrakeZones
  import opened Interlock
  import opened InterlockRuns
  import opened ClosedLoop
  import opened BlockSafety
  import opened Scripts
  import opened Witnesses

  /** A standing train, recorded. */
  const STANDING_HERE: Block := Block(Monitor(Entered, 0, false), [], Empty, 2, 2, false, 0, false)
  const NOTICED: Block := Block(Monitor(Entered, 0, false), [], Entered, 2, 2, false, 0, true)

  // ------------------------------------------------------------------------- without the handover

  /** One train standing in the station, one in the pre-station behind it. */
  const ONE_BEHIND: World :=
    World([Position(Station, Standing), Position(PreStation, Standing)],
          PerZone(STANDING_HERE, Vacant(Empty), Vacant(Empty), STANDING_HERE), MOTORS_OFF, BOOT, CopyLiftHill, [])

  /** The two trains with the first at `p`, in AUTOMATIC and between cycles. */
  function Pair(p: Position, station: Block, a: Actuators): World {
    World([p, Position(PreStation, Standing)], PerZone(station, Vacant(Empty), Vacant(Empty), NOTICED), a,
          Memory(AUTOMATIC, 0), CopyLiftHill, [])
  }

  lemma StationGetsAway(a: Actuators, go: byte)
    ensures var z := PerZone(Entered, Empty, Empty, Entered);
            var d := StationAutomatic(z, go);
            d.releaseGo == go && ObeyAll(SentFor(z, go), a) == DISPATCHING
  {
    FourCommands(a, LiftHillForward(255), StationForward(128), StopPreStation, StopRide);
    hide ObeyAll;
  }

  lemma BothSeen()
    ensures Copies(AllCopied(ONE_BEHIND)) == PerZone(Entered, Empty, Empty, Entered)
    ensures var s := AfterAutomatic(ONE_BEHIND);
            s == Pair(Position(Station, Standing), NOTICED, DISPATCHING).(actuators := s.actuators, memory := s.memory)
  {
    var s := ONE_BEHIND;
    assert s.trains[0] == Position(Station, Standing) && s.trains[1] == Position(PreStation, Standing);
    assert On(s, Station, Standing) && On(s, PreStation, Standing);
    hide ObeyAll, AfterCycle, SentIn;
  }

  lemma FirstIsSetFree()
    ensures AfterAutomatic(ONE_BEHIND) == Pair(Position(Station, Standing), NOTICED, DISPATCHING)
  {
    BothSeen();
    Automatically(ONE_BEHIND);
    StationGetsAway(ONE_BEHIND.actuators, ONE_BEHIND.memory.releaseGo);
    hide ObeyAll, AllCopied, AfterAutomatic, StationAutomatic, SentFor;
  }

  /** The first train in the gap, `k` quiet polls after its exit was read. */
  function InTheGap(k: nat): World {
    Pair(IN_THE_GAP, Quietened(k), DISPATCHING)
  }

  lemma FirstRollsOff()
    ensures var s := Pair(Position(Station, Standing), NOTICED, DISPATCHING);
            var t := Pair(IN_THE_GAP, EXIT_UNREAD, DISPATCHING);
            && Allowed(s, RearFirst(0)) && Next(s, RearFirst(0)) == t
            && Allowed(t, ReadEvent(Station)) && Next(t, ReadEvent(Station)) == InTheGap(0)
  {
    var s := Pair(Position(Station, Standing), NOTICED, DISPATCHING);
    assert Moved(s, 0, IN_THE_GAP) == [IN_THE_GAP, Position(PreStation, Standing)];
    assert [] + [FallSecond] == [FallSecond] && [FallSecond][1..] == [];
    OneFall();
    hide PollStep;
  }

  lemma {:induction false} StationGoesQuiet(k: nat) returns (steps: seq<Step>)
    requires k < QUIET_POLLS_TO_VACATE
    ensures Leads(InTheGap(0), steps, InTheGap(k))
  {
    if k == 0 {
      steps := [];
    } else {
      var before := StationGoesQuiet(k - 1);
      assert Next(InTheGap(k - 1), QuietPoll(Station)) == InTheGap(k);
      Onward(InTheGap(0), before, InTheGap(k - 1), QuietPoll(Station));
      steps := before + [QuietPoll(Station)];
    }
  }

  lemma ReachesTheGap() returns (steps: seq<Step>)
    ensures Leads(ONE_BEHIND, steps, InTheGap(499))
  {
    var cycle := WholeCycle(ONE_BEHIND);
    var quiet := StationGoesQuiet(499);
    FirstIsSetFree();
    FirstRollsOff();
    var s, t := Pair(Position(Station, Standing), NOTICED, DISPATCHING), Pair(IN_THE_GAP, EXIT_UNREAD, DISPATCHING);
    steps := cycle + [RearFirst(0)] + [ReadEvent(Station)] + quiet;
    hide *;
    Onward(ONE_BEHIND, cycle, s, RearFirst(0));
    Onward(ONE_BEHIND, cycle + [RearFirst(0)], t, ReadEvent(Station));
    AndThen(ONE_BEHIND, cycle + [RearFirst(0)] + [ReadEvent(Station)], InTheGap(0), quiet, InTheGap(499));
  }

  /** The station timed out with the train still in the gap. */
  const FORGOTTEN: World :=
    Pair(IN_THE_GAP, Block(Monitor(Empty, 500, true), [], Entered, 0, 0, false, 0, false), DISPATCHING)

  const LET_IN: World := AfterAutomatic(FORGOTTEN)

  lemma NobodySeenAhead(a: Actuators, go: byte)
    ensures var z := PerZone(Empty, Empty, Empty, Entered);
            ObeyAll(SentFor(z, go), a) == PerZone(128, 0, RIDE_STOP, PRESTATION_GO)
  {
    FourCommands(a, LiftHillStop, StationForward(128), ReleasePreStation(PRESTATION_GO), StopRide);
    hide ObeyAll;
  }

  lemma SeenAgain()
    ensures Copies(AllCopied(FORGOTTEN)) == PerZone(Empty, Empty, Empty, Entered)
    ensures LET_IN.blocks.preStation.acted && LET_IN.trains == [IN_THE_GAP, Position(PreStation, Standing)]
  {
    var s := FORGOTTEN;
    assert s.trains[1] == Position(PreStation, Standing) && On(s, PreStation, Standing);
    hide ObeyAll, AfterCycle, SentIn;
  }

  lemma BrakeIsOpened()
    ensures LET_IN.actuators.preStation == PRESTATION_GO
  {
    SeenAgain();
    Automatically(FORGOTTEN);
    NobodySeenAhead(FORGOTTEN.actuators, FORGOTTEN.memory.releaseGo);
    hide ObeyAll, AllCopied, AfterAutomatic, StationAutomatic, SentFor, Pair;
  }

  lemma SecondIsLetIn()
    ensures Allowed(LET_IN, FrontFirst(1)) && !Safe(Next(LET_IN, FrontFirst(1)))
  {
    SeenAgain();
    BrakeIsOpened();
    hide AfterAutomatic;
    var end := Next(LET_IN, FrontFirst(1));
    assert end.trains == [IN_THE_GAP, Position(PreStation, Spanning)];
    assert Occupies(end.trains[0], Station) && Occupies(end.trains[1], Station);
  }

  /** A consistent start, a run allowed but for `bad`, and two trains in one zone at the end. */
  ghost predicate HitsAfter(s: World, before: seq<Step>, bad: Step, after: seq<Step>) {
    && ConsistentStart(s) && AllowedRun(s, before)
    && var m := After(s, before);
       && Enabled(m, bad) && CommandingMode(m, bad)
       && AllowedRun(Next(m, bad), after) && !Safe(After(Next(m, bad), after))
  }

  lemma HitsBy(s: World, before: seq<Step>, m: World, bad: Step, after: seq<Step>, end: World)
    requires ConsistentStart(s) && Leads(s, before, m) && Enabled(m, bad) && CommandingMode(m, bad)
    requires Leads(Next(m, bad), after, end) && !Safe(end)
    ensures HitsAfter(s, before, bad, after) && After(s, before) == m
  {
    hide ConsistentStart, AllowedRun, After, Enabled, Next, CommandingMode, Safe;
  }

  lemma OneBehindIsConsistent()
    ensures ConsistentStart(ONE_BEHIND)
  {
    var s := ONE_BEHIND;
    assert s.trains[0] == Position(Station, Standing) && s.trains[1] == Position(PreStation, Standing);
    assert On(s, Station, Standing) && On(s, PreStation, Standing);
    forall z: Zone
      ensures if On(s, z, Approaching) then FreshBlock(s.blocks.Get(z), Entering, 1)
              else if On(s, z, Standing) then FreshBlock(s.blocks.Get(z), Entered, 2)
              else FreshBlock(s.blocks.Get(z), Empty, 0)
    {
    }
  }

  lemma TimesOutTooSoon()
    ensures var m := InTheGap(499);
            && Enabled(m, QuietPoll(Station)) && Next(m, QuietPoll(Station)) == FORGOTTEN
            && FastController(m, QuietPoll(Station)) && !Handover(m, QuietPoll(Station))
            && CommandingMode(m, QuietPoll(Station))
  {
    var m := InTheGap(499);
    assert m.trains[0] == IN_THE_GAP && On(m, Station, Between);
  }

  /**
   * `Handover` is needed. From a consistent start, one quiet poll that times the station out while a
   * train is in the gap ahead of it, in a run allowed before and after, ends with two trains in the station.
   */
  lemma WithoutHandover() returns (before: seq<Step>, after: seq<Step>)
    ensures HitsAfter(ONE_BEHIND, before, QuietPoll(Station), after)
    ensures var m := After(ONE_BEHIND, before);
            FastController(m, QuietPoll(Station)) && !Handover(m, QuietPoll(Station))
  {
    before := ReachesTheGap();
    assert FORGOTTEN.pc == CopyLiftHill;
    var cycle := WholeCycle(FORGOTTEN);
    after := cycle + [FrontFirst(1)];
    var m := InTheGap(499);
    hide *;
    SecondIsLetIn();
    OneBehindIsConsistent();
    TimesOutTooSoon();
    Onward(FORGOTTEN, cycle, LET_IN, FrontFirst(1));
    HitsBy(ONE_BEHIND, before, m, QuietPoll(Station), after, Next(LET_IN, FrontFirst(1)));
  }

  // ---------------------------------------------------- nor with the arrival ahead still unread

  /** Both trains, the first on the hill with its arrival unread, the second at `q`. */
  function Unheard(q: Position, station: Block, preStation: Block, a: Actuators): World {
    World([ON_THE_HILL, q], PerZone(station, ARRIVED, Vacant(Empty), preStation), a, Memory(AUTOMATIC, 0),
          CopyLiftHill, [])
  }

  /** The first train gone, front first, with the second standing behind; the station quiet for `k` polls. */
  function GoneAhead(k: nat): World {
    Unheard(Position(PreStation, Standing), Quietened(k), NOTICED, DISPATCHING)
  }

  /** The first train free to go, across the boundary of its zone, and gone with the exit unread. */
  const FIRST_FREE: World := Pair(Position(Station, Standing), NOTICED, DISPATCHING)
  const FIRST_ACROSS: World :=
    World([Position(Station, Spanning), Position(PreStation, Standing)],
          PerZone(STANDING_LEFT, ARRIVED, Vacant(Empty), NOTICED), DISPATCHING, Memory(AUTOMATIC, 0), CopyLiftHill, [])
  const FIRST_GONE: World := Unheard(Position(PreStation, Standing), EXIT_UNREAD, NOTICED, DISPATCHING)

  lemma FirstCrosses()
    ensures Allowed(FIRST_FREE, FrontFirst(0)) && Next(FIRST_FREE, FrontFirst(0)) == FIRST_ACROSS
  {
    assert Moved(FIRST_FREE, 0, Position(Station, Spanning)) == FIRST_ACROSS.trains;
    assert [] + [RiseFirst] == [RiseFirst];
  }

  lemma FirstGoes()
    ensures Allowed(FIRST_ACROSS, Complete(0)) && Next(FIRST_ACROSS, Complete(0)) == FIRST_GONE
  {
    assert Moved(FIRST_ACROSS, 0, ON_THE_HILL) == [ON_THE_HILL, Position(PreStation, Standing)];
    assert [] + [FallSecond] == [FallSecond];
  }

  lemma ExitIsRead()
    ensures Allowed(FIRST_GONE, ReadEvent(Station)) && Next(FIRST_GONE, ReadEvent(Station)) == GoneAhead(0)
  {
    assert [FallSecond][1..] == [];
    OneFall();
    hide PollStep;
  }

  lemma {:induction false} GoesQuietBehind(k: nat) returns (steps: seq<Step>)
    requires k < QUIET_POLLS_TO_VACATE
    ensures Leads(GoneAhead(0), steps, GoneAhead(k))
  {
    if k == 0 {
      steps := [];
    } else {
      var before := GoesQuietBehind(k - 1);
      assert Next(GoneAhead(k - 1), QuietPoll(Station)) == GoneAhead(k);
      Onward(GoneAhead(0), before, GoneAhead(k - 1), QuietPoll(Station));
      steps := before + [QuietPoll(Station)];
    }
  }

  lemma GetsAhead() returns (steps: seq<Step>)
    ensures Leads(ONE_BEHIND, steps, GoneAhead(499))
  {
    var cycle := WholeCycle(ONE_BEHIND);
    var quiet := GoesQuietBehind(499);
    FirstIsSetFree();
    FirstCrosses();
    FirstGoes();
    ExitIsRead();
    steps := cycle + [FrontFirst(0)] + [Complete(0)] + [ReadEvent(Station)] + quiet;
    hide *;
    Onward(ONE_BEHIND, cycle, FIRST_FREE, FrontFirst(0));
    Onward(ONE_BEHIND, cycle + [FrontFirst(0)], FIRST_ACROSS, Complete(0));
    Onward(ONE_BEHIND, cycle + [FrontFirst(0)] + [Complete(0)], FIRST_GONE, ReadEvent(Station));
    AndThen(ONE_BEHIND, cycle + [FrontFirst(0)] + [Complete(0)] + [ReadEvent(Station)], GoneAhead(0), quiet,
            GoneAhead(499));
  }

  /** The station as it is then timed out, and as the second train is recorded in it. */
  function InStation(m: Monitor, queue: seq<LineEvent>, happened: nat, read: nat): Block {
    Block(m, queue, Empty, happened, read, false, 0, false)
  }

  const OPENED: Actuators := PerZone(128, 0, RIDE_STOP, PRESTATION_GO)
  const TIMED_OUT_EARLY: World := Unheard(Position(PreStation, Standing), TIMED_OUT, NOTICED, DISPATCHING)
  const COMING: World :=
    Unheard(Position(PreStation, Standing), InStation(Monitor(Empty, 500, true), [], 0, 0), NOTICED, OPENED)

  lemma SeenBehind()
    ensures Copies(AllCopied(TIMED_OUT_EARLY)) == PerZone(Empty, Empty, Empty, Entered)
    ensures var s := AfterAutomatic(TIMED_OUT_EARLY); s == COMING.(actuators := s.actuators, memory := s.memory)
  {
    var s := TIMED_OUT_EARLY;
    assert s.trains[1] == Position(PreStation, Standing) && On(s, PreStation, Standing);
    hide ObeyAll, AfterCycle, SentIn;
  }

  lemma IsCalledIn()
    ensures AfterAutomatic(TIMED_OUT_EARLY) == COMING
  {
    SeenBehind();
    Automatically(TIMED_OUT_EARLY);
    NobodySeenAhead(TIMED_OUT_EARLY.actuators, TIMED_OUT_EARLY.memory.releaseGo);
    assert StationAutomatic(PerZone(Empty, Empty, Empty, Entered), 0).releaseGo == 0;
    hide ObeyAll, AllCopied, AfterAutomatic, StationAutomatic, SentFor;
  }

  /** The second train comes into the station and to a stand there, every edge of it read. */
  const IN_THE_STATION: World :=
    Unheard(Position(Station, Standing), InStation(Monitor(Entered, 0, false), [], 2, 2),
            PRE_LEFT, OPENED)

  const PRE_LEFT: Block := Block(Monitor(Entered, 0, false), [FallSecond], Entered, 3, 2, false, 0, false)

  // The way there: front on the station, rear off the pre-station, recorded ENTERING, on the second sensor.
  const FRONT_IN: World :=
    Unheard(Position(PreStation, Spanning), InStation(Monitor(Empty, 500, true), [RiseFirst], 1, 0), STANDING_LEFT,
            OPENED)
  const COME_IN: World :=
    Unheard(Position(Station, Approaching), InStation(Monitor(Empty, 500, true), [RiseFirst], 1, 0), PRE_LEFT, OPENED)
  const RECORDED_IN: World :=
    Unheard(Position(Station, Approaching), InStation(Monitor(Entering, 0, false), [], 1, 1), PRE_LEFT, OPENED)
  const STOPPED_IN: World :=
    Unheard(Position(Station, Standing), InStation(Monitor(Entering, 0, false), [RiseSecond], 2, 1), PRE_LEFT, OPENED)

  lemma ArrivalEdges()
    ensures PollStep(Monitor(Empty, 500, true), Batch([RiseFirst])) == Monitor(Entering, 0, false)
    ensures PollStep(Monitor(Entering, 0, false), Batch([RiseSecond])) == Monitor(Entered, 0, false)
  {
    OneEvent(Monitor(Empty, 500, true), RiseFirst);
    OneEvent(Monitor(Entering, 0, false), RiseSecond);
    hide PollStep;
  }

  lemma FrontComesIn()
    ensures Allowed(COMING, FrontFirst(1)) && Next(COMING, FrontFirst(1)) == FRONT_IN
  {
    assert Moved(COMING, 1, Position(PreStation, Spanning)) == FRONT_IN.trains;
    assert [] + [RiseFirst] == [RiseFirst];
  }

  lemma RearComesIn()
    ensures Allowed(FRONT_IN, Complete(1)) && Next(FRONT_IN, Complete(1)) == COME_IN
  {
    assert Moved(FRONT_IN, 1, Position(Station, Approaching)) == COME_IN.trains;
    assert [] + [FallSecond] == [FallSecond];
  }

  lemma ArrivalIsHeard()
    ensures Allowed(COME_IN, ReadEvent(Station)) && Next(COME_IN, ReadEvent(Station)) == RECORDED_IN
  {
    ArrivalEdges();
    assert [RiseFirst][1..] == [];
    hide PollStep;
  }

  lemma ComesToAStand()
    ensures Allowed(RECORDED_IN, Arrive(1)) && Next(RECORDED_IN, Arrive(1)) == STOPPED_IN
    ensures Allowed(STOPPED_IN, ReadEvent(Station)) && Next(STOPPED_IN, ReadEvent(Station)) == IN_THE_STATION
  {
    ArrivalEdges();
    assert Moved(RECORDED_IN, 1, Position(Station, Standing)) == STOPPED_IN.trains;
    assert [] + [RiseSecond] == [RiseSecond] && [RiseSecond][1..] == [];
    hide PollStep;
  }

  lemma ComesIn() returns (steps: seq<Step>)
    ensures Leads(COMING, steps, IN_THE_STATION)
  {
    hide *;
    FrontComesIn();
    RearComesIn();
    ArrivalIsHeard();
    ComesToAStand();
    NoSteps(COMING);
    Onward(COMING, [], COMING, FrontFirst(1));
    Onward(COMING, [] + [FrontFirst(1)], FRONT_IN, Complete(1));
    var on := [] + [FrontFirst(1)] + [Complete(1)];
    Onward(COMING, on, COME_IN, ReadEvent(Station));
    Onward(COMING, on + [ReadEvent(Station)], RECORDED_IN, Arrive(1));
    Onward(COMING, on + [ReadEvent(Station)] + [Arrive(1)], STOPPED_IN, ReadEvent(Station));
    steps := on + [ReadEvent(Station)] + [Arrive(1)] + [ReadEvent(Station)];
  }

  const SENT_ON: World := AfterAutomatic(IN_THE_STATION)

  lemma SeenInStation()
    ensures Copies(AllCopied(IN_THE_STATION)) == PerZone(Entered, Empty, Empty, Entered)
    ensures SENT_ON.blocks.station.acted && SENT_ON.trains == [ON_THE_HILL, Position(Station, Standing)]
  {
    var s := IN_THE_STATION;
    assert s.trains[1] == Position(Station, Standing) && On(s, Station, Standing);
    hide ObeyAll, AfterCycle, SentIn;
  }

  lemma IsSentOn()
    ensures SENT_ON.actuators == DISPATCHING
  {
    SeenInStation();
    Automatically(IN_THE_STATION);
    StationGetsAway(IN_THE_STATION.actuators, IN_THE_STATION.memory.releaseGo);
    hide ObeyAll, AllCopied, AfterAutomatic, StationAutomatic, SentFor;
  }

  lemma RunsInto()
    ensures Allowed(SENT_ON, FrontFirst(1)) && !Safe(Next(SENT_ON, FrontFirst(1)))
  {
    SeenInStation();
    IsSentOn();
    hide AfterAutomatic;
    var end := Next(SENT_ON, FrontFirst(1));
    assert end.trains == [ON_THE_HILL, Position(Station, Spanning)];
    assert Occupies(end.trains[0], LiftHill) && Occupies(end.trains[1], LiftHill);
  }

  lemma TimesOutUnheard()
    ensures var m := GoneAhead(499);
            && Enabled(m, QuietPoll(Station)) && Next(m, QuietPoll(Station)) == TIMED_OUT_EARLY
            && FastController(m, QuietPoll(Station)) && !Handover(m, QuietPoll(Station))
            && CommandingMode(m, QuietPoll(Station)) && !On(m, Station, Between)
  {
  }

  /**
   * The other half of `Handover` is needed too. From a consistent start, one quiet poll that times the
   * station out with nobody in the gap, but with the arrival ahead unread, in a run allowed before and
   * after, ends with two trains on the hill.
   */
  lemma WithoutHearingAhead() returns (before: seq<Step>, after: seq<Step>)
    ensures HitsAfter(ONE_BEHIND, before, QuietPoll(Station), after)
    ensures var m := After(ONE_BEHIND, before);
            && FastController(m, QuietPoll(Station)) && !Handover(m, QuietPoll(Station))
            && !On(m, Station, Between)
  {
    before := GetsAhead();
    assert TIMED_OUT_EARLY.pc == CopyLiftHill && IN_THE_STATION.pc == CopyLiftHill;
    var first := WholeCycle(TIMED_OUT_EARLY);
    var second := WholeCycle(IN_THE_STATION);
    var way := ComesIn();
    after := first + way + second + [FrontFirst(1)];
    var m := GoneAhead(499);
    hide *;
    IsCalledIn();
    RunsInto();
    OneBehindIsConsistent();
    TimesOutUnheard();
    AndThen(TIMED_OUT_EARLY, first, COMING, way, IN_THE_STATION);
    AndThen(TIMED_OUT_EARLY, first + way, IN_THE_STATION, second, SENT_ON);
    Onward(TIMED_OUT_EARLY, first + way + second, SENT_ON, FrontFirst(1));
    HitsBy(ONE_BEHIND, before, m, QuietPoll(Station), after, Next(SENT_ON, FrontFirst(1)));
  }

  // ------------------------------------------------------------------- without the fast controller

  /** One train standing on the ride, one on its way up the hill. */
  const ONE_CLIMBING: World :=
    World([Position(Ride, Standing), Position(LiftHill, Approaching)],
          PerZone(Vacant(Empty), Block(Monitor(Entering, 0, false), [], Empty, 1, 1, false, 0, false),
                  STANDING_HERE, Vacant(Empty)),
          MOTORS_OFF, BOOT, CopyLiftHill, [])

  const CLIMBING: World := AfterAutomatic(ONE_CLIMBING)

  lemma HillGoesOn(a: Actuators, go: byte)
    ensures var z := PerZone(Empty, Entering, Entered, Empty);
            ObeyAll(SentFor(z, go), a) == PerZone(0, 255, RIDE_GO, PRESTATION_STOP)
  {
    FourCommands(a, LiftHillForward(255), StopStation, ReleasePreStation(PRESTATION_STOP), ReleaseRide(RIDE_GO));
    hide ObeyAll;
  }

  lemma ClimberSeen()
    ensures Copies(AllCopied(ONE_CLIMBING)) == PerZone(Empty, Entering, Entered, Empty)
    ensures CLIMBING.trains == ONE_CLIMBING.trains && !CLIMBING.blocks.liftHill.acted
  {
    var s := ONE_CLIMBING;
    assert s.trains[0] == Position(Ride, Standing) && On(s, Ride, Standing);
    hide ObeyAll, AfterCycle, SentIn;
  }

  lemma HillMotorRuns()
    ensures CLIMBING.actuators.liftHill == 255
  {
    ClimberSeen();
    Automatically(ONE_CLIMBING);
    HillGoesOn(ONE_CLIMBING.actuators, ONE_CLIMBING.memory.releaseGo);
    hide ObeyAll, AllCopied, AfterAutomatic, StationAutomatic, SentFor;
  }

  const AT_THE_TOP: World := Next(CLIMBING, Arrive(1))

  lemma RunsOverTheTop()
    ensures Allowed(CLIMBING, Arrive(1))
    ensures Enabled(AT_THE_TOP, FrontFirst(1)) && CommandingMode(AT_THE_TOP, FrontFirst(1))
    ensures Handover(AT_THE_TOP, FrontFirst(1)) && !FastController(AT_THE_TOP, FrontFirst(1))
    ensures !Safe(Next(AT_THE_TOP, FrontFirst(1)))
  {
    ClimberSeen();
    HillMotorRuns();
    hide AfterAutomatic;
    var end := Next(AT_THE_TOP, FrontFirst(1));
    assert end.trains == [Position(Ride, Standing), Position(LiftHill, Spanning)];
    assert Occupies(end.trains[0], Ride) && Occupies(end.trains[1], Ride);
  }

  lemma OneClimbingIsConsistent()
    ensures ConsistentStart(ONE_CLIMBING)
  {
    var s := ONE_CLIMBING;
    assert s.trains[0] == Position(Ride, Standing) && s.trains[1] == Position(LiftHill, Approaching);
    assert On(s, Ride, Standing) && On(s, LiftHill, Approaching);
    forall z: Zone
      ensures if On(s, z, Approaching) then FreshBlock(s.blocks.Get(z), Entering, 1)
              else if On(s, z, Standing) then FreshBlock(s.blocks.Get(z), Entered, 2)
              else FreshBlock(s.blocks.Get(z), Empty, 0)
    {
    }
  }

  /**
   * `FastController` is needed. From a consistent start, one train that runs over the top of the hill
   * before a cycle has seen it there, in an otherwise allowed run, ends with two trains on the ride.
   */
  lemma WithoutFastController() returns (before: seq<Step>)
    ensures HitsAfter(ONE_CLIMBING, before, FrontFirst(1), [])
    ensures var m := After(ONE_CLIMBING, before); Handover(m, FrontFirst(1)) && !FastController(m, FrontFirst(1))
  {
    var cycle := WholeCycle(ONE_CLIMBING);
    before := cycle + [Arrive(1)];
    RunsOverTheTop();
    OneClimbingIsConsistent();
    hide *;
    Onward(ONE_CLIMBING, cycle, CLIMBING, Arrive(1));
    NoSteps(Next(AT_THE_TOP, FrontFirst(1)));
    HitsBy(ONE_CLIMBING, before, AT_THE_TOP, FrontFirst(1), [], Next(AT_THE_TOP, FrontFirst(1)));
  }
}
