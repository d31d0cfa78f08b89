/** Concrete runs: snapshots that miss a train, and a start with a train nobody recorded. */
module Witnesses {
  import opened Coaster
  import opened BrakeZones
  import opened Interlock
  import opened InterlockRuns
  import opened ClosedLoop
  import opened Sampling
  import opened Scripts

  function Vacant(copy: ZoneState): Block {
    Block(Monitor(Empty, 0, false), [], copy, 0, 0, false, 0, false)
  }

  // ------------------------------------------------------------- a train no snapshot shows

  const MOTORS_OFF: Actuators := PerZone(0, 0, RIDE_STOP, PRESTATION_STOP)
  const DISPATCHING: Actuators := PerZone(128, 255, RIDE_STOP, PRESTATION_STOP)

  /** One train, standing in the station. */
  const AT_THE_STATION: World :=
    World([Position(Station, Standing)],
          PerZone(Block(Monitor(Entered, 0, false), [], Empty, 2, 2, false, 0, false),
                  Vacant(Empty), Vacant(Empty), Vacant(Empty)),
          MOTORS_OFF, BOOT, CopyLiftHill, [])

  /** The same train once a cycle in AUTOMATIC has set it free. */
  const SET_FREE: World :=
    World([Position(Station, Standing)],
          PerZone(Block(Monitor(Entered, 0, false), [], Entered, 2, 2, false, 0, true),
                  Vacant(Empty), Vacant(Empty), Vacant(Empty)),
          DISPATCHING, Memory(AUTOMATIC, 0), CopyLiftHill, [])

  /** Reaches `SET_FREE`: one whole cycle in AUTOMATIC. */
  lemma SetsFree() returns (steps: seq<Step>)
    ensures Leads(AT_THE_STATION, steps, SET_FREE) && NoGap(steps)
  {
    assert AT_THE_STATION.pc == CopyLiftHill && AllDone(AT_THE_STATION);
    steps := WholeCycle(AT_THE_STATION);
    hide *;
    FreeAfterwards();
  }

  lemma SeenAtTheStation()
    ensures Copies(AllCopied(AT_THE_STATION)) == PerZone(Entered, Empty, Empty, Empty)
    ensures var s := AfterAutomatic(AT_THE_STATION); s == SET_FREE.(actuators := s.actuators, memory := s.memory)
  {
    assert AT_THE_STATION.trains[0] == Position(Station, Standing);
    assert On(AT_THE_STATION, Station, Standing);
    hide ObeyAll, AfterCycle, SentIn;
  }

  lemma SentAtTheStation(a: Actuators)
    ensures var z := PerZone(Entered, Empty, Empty, Empty);
            ObeyAll(SentFor(z, 0), a) == DISPATCHING && StationAutomatic(z, 0).releaseGo == 0
  {
    FourCommands(a, LiftHillForward(255), StationForward(128), StopPreStation, StopRide);
    hide ObeyAll;
  }

  lemma FreeAfterwards()
    ensures AfterAutomatic(AT_THE_STATION) == SET_FREE
  {
    SeenAtTheStation();
    Automatically(AT_THE_STATION);
    SentAtTheStation(AT_THE_STATION.actuators);
    hide ObeyAll, AllCopied, AfterAutomatic, StationAutomatic, SentFor;
  }

  // ------------------------------------------------------ the train leaves, the station goes quiet

  /** The state with these blocks for the station and the lift hill, and the one train at `p`. */
  function Stage(pc: Pc, p: Position, station: Block, hill: Block): World {
    SET_FREE.(trains := [p], blocks := SET_FREE.blocks.(station := station, liftHill := hill), pc := pc)
  }

  /** The station as the train leaves it: its exit unread, or read and followed by `k` quiet polls. */
  const EXIT_UNREAD: Block := Block(Monitor(Entered, 0, false), [FallSecond], Entered, 3, 2, false, 0, false)

  function Quietened(k: nat): Block {
    Block(Monitor(Entered, k, true), [], Entered, 3, 3, false, 0, false)
  }

  /** The lift hill with its arrival unread, and read since it was copied. */
  const ARRIVED: Block := Block(Monitor(Empty, 0, false), [RiseFirst], Empty, 1, 0, false, 0, false)
  const ARRIVAL_READ: Block := Block(Monitor(Entering, 0, false), [], Empty, 1, 1, false, 0, false)

  const IN_THE_GAP: Position := Position(Station, Between)
  const ON_THE_HILL: Position := Position(LiftHill, Approaching)

  /** The cycle has copied every zone, and shows none occupied. */
  const NOBODY_SEEN: World :=
    Stage(AskMode, ON_THE_HILL, Block(Monitor(Empty, 500, true), [], Empty, 0, 0, false, 0, false), ARRIVAL_READ)

  lemma OneFall()
    ensures PollStep(Monitor(Entered, 0, false), Batch([FallSecond])) == Monitor(Entered, 0, true)
  {
    assert [FallSecond][..0] == [];
    assert StepLines(Monitor(Entered, 0, false), []) == Monitor(Entered, 0, false);
  }

  lemma ExitIsRead(pc: Pc, p: Position, hill: Block)
    ensures var s := Stage(pc, p, EXIT_UNREAD, hill);
            Allowed(s, ReadEvent(Station)) && Next(s, ReadEvent(Station)) == Stage(pc, p, Quietened(0), hill)
  {
    OneFall();
    assert [FallSecond][1..] == [];
    hide PollStep;
  }

  lemma {:induction false} GoesQuiet(pc: Pc, p: Position, hill: Block, k: nat) returns (steps: seq<Step>)
    requires k < QUIET_POLLS_TO_VACATE
    ensures Leads(Stage(pc, p, Quietened(0), hill), steps, Stage(pc, p, Quietened(k), hill))
    ensures QuietPolls(steps, Station) == k && NoGap(steps) && EndCycle !in steps
  {
    if k == 0 {
      steps := [];
    } else {
      var s := Stage(pc, p, Quietened(k - 1), hill);
      var before := GoesQuiet(pc, p, hill, k - 1);
      assert Next(s, QuietPoll(Station)) == Stage(pc, p, Quietened(k), hill);
      Onward(Stage(pc, p, Quietened(0), hill), before, s, QuietPoll(Station));
      steps := before + [QuietPoll(Station)];
      CountAppend(before, [QuietPoll(Station)]);
    }
  }

  lemma {:induction false} CountAppend(steps: seq<Step>, more: seq<Step>)
    ensures QuietPolls(steps + more, Station) == QuietPolls(steps, Station) + QuietPolls(more, Station)
  {
    if steps == [] {
      assert steps + more == more;
    } else {
      assert (steps + more)[1..] == steps[1..] + more;
      CountAppend(steps[1..], more);
    }
  }

  /** Front first: onto the hill, then off the station. */
  lemma MovesUp(pc: Pc)
    ensures var s, spanning := SET_FREE.(pc := pc), Stage(pc, Position(Station, Spanning), STANDING_LEFT, ARRIVED);
            && Allowed(s, FrontFirst(0)) && Next(s, FrontFirst(0)) == spanning
            && Allowed(spanning, Complete(0))
            && Next(spanning, Complete(0)) == Stage(pc, ON_THE_HILL, EXIT_UNREAD, ARRIVED)
  {
    assert Moved(SET_FREE, 0, Position(Station, Spanning)) == [Position(Station, Spanning)];
    var spanning := Stage(pc, Position(Station, Spanning), STANDING_LEFT, ARRIVED);
    assert Moved(spanning, 0, ON_THE_HILL) == [ON_THE_HILL];
    assert [] + [RiseFirst] == [RiseFirst] && [] + [FallSecond] == [FallSecond];
  }

  const STANDING_LEFT: Block := Block(Monitor(Entered, 0, false), [], Entered, 2, 2, false, 0, false)

  lemma LeavesFrontFirst(pc: Pc) returns (steps: seq<Step>)
    ensures Leads(SET_FREE.(pc := pc), steps, Stage(pc, ON_THE_HILL, Quietened(0), ARRIVED))
    ensures QuietPolls(steps, Station) == 0 && NoGap(steps) && EndCycle !in steps
  {
    var s := SET_FREE.(pc := pc);
    var spanning := Stage(pc, Position(Station, Spanning), STANDING_LEFT, ARRIVED);
    hide Allowed, Next, AllowedRun, After, Stage, Leads;
    MovesUp(pc);
    ExitIsRead(pc, ON_THE_HILL, ARRIVED);
    NoSteps(s);
    Onward(s, [], s, FrontFirst(0));
    Onward(s, [] + [FrontFirst(0)], spanning, Complete(0));
    Onward(s, [] + [FrontFirst(0)] + [Complete(0)], Stage(pc, ON_THE_HILL, EXIT_UNREAD, ARRIVED), ReadEvent(Station));
    steps := [] + [FrontFirst(0)] + [Complete(0)] + [ReadEvent(Station)];
    NoPolls(steps);
  }

  lemma RollsOff()
    ensures var gap := Stage(CopyLiftHill, IN_THE_GAP, EXIT_UNREAD, Vacant(Empty));
            Allowed(SET_FREE, RearFirst(0)) && Next(SET_FREE, RearFirst(0)) == gap
  {
    assert Moved(SET_FREE, 0, IN_THE_GAP) == [IN_THE_GAP];
    assert SET_FREE.blocks.station.queue + [FallSecond] == [FallSecond];
  }

  lemma LeavesRearFirst() returns (steps: seq<Step>)
    ensures Leads(SET_FREE, steps, Stage(CopyLiftHill, IN_THE_GAP, Quietened(0), Vacant(Empty)))
  {
    hide *;
    RollsOff();
    ExitIsRead(CopyLiftHill, IN_THE_GAP, Vacant(Empty));
    NoSteps(SET_FREE);
    Onward(SET_FREE, [], SET_FREE, RearFirst(0));
    var gap := Stage(CopyLiftHill, IN_THE_GAP, EXIT_UNREAD, Vacant(Empty));
    Onward(SET_FREE, [] + [RearFirst(0)], gap, ReadEvent(Station));
    steps := [] + [RearFirst(0)] + [ReadEvent(Station)];
  }

  lemma OneRise()
    ensures PollStep(Monitor(Empty, 0, false), Batch([RiseFirst])) == Monitor(Entering, 0, false)
  {
    assert [RiseFirst][..0] == [];
    assert StepLines(Monitor(Empty, 0, false), []) == Monitor(Empty, 0, false);
  }

  /** The hill has been copied EMPTY and the train is on it, with the station one quiet poll from being timed out. */
  const UNSEEN: World := Stage(CopyRide, ON_THE_HILL, Quietened(499), ARRIVED)

  const TIMED_OUT: Block := Block(Monitor(Empty, 500, true), [], Entered, 0, 0, false, 0, false)

  lemma TailSteps()
    ensures var a := Stage(CopyRide, ON_THE_HILL, Quietened(499), ARRIVAL_READ);
            var b := a.(blocks := a.blocks.(station := TIMED_OUT));
            && Allowed(UNSEEN, ReadEvent(LiftHill)) && Next(UNSEEN, ReadEvent(LiftHill)) == a
            && Allowed(a, QuietPoll(Station)) && Next(a, QuietPoll(Station)) == b
            && Allowed(b, CopyZone) && Next(b, CopyZone) == b.(pc := CopyPreStation)
            && Allowed(b.(pc := CopyPreStation), CopyZone)
            && Next(b.(pc := CopyPreStation), CopyZone) == b.(pc := CopyStation)
            && Allowed(b.(pc := CopyStation), CopyZone) && Next(b.(pc := CopyStation), CopyZone) == NOBODY_SEEN
  {
    OneRise();
    assert [RiseFirst][1..] == [];
    hide PollStep;
  }

  const TAIL: seq<Step> := [ReadEvent(LiftHill), QuietPoll(Station), CopyZone, CopyZone, CopyZone]

  lemma TailIsMissed()
    ensures Leads(UNSEEN, TAIL, NOBODY_SEEN)
  {
    var a := Stage(CopyRide, ON_THE_HILL, Quietened(499), ARRIVAL_READ);
    var b := a.(blocks := a.blocks.(station := TIMED_OUT));
    hide *;
    TailSteps();
    NoSteps(UNSEEN);
    Onward(UNSEEN, [], UNSEEN, ReadEvent(LiftHill));
    Onward(UNSEEN, [] + [ReadEvent(LiftHill)], a, QuietPoll(Station));
    var so := [] + [ReadEvent(LiftHill)] + [QuietPoll(Station)];
    Onward(UNSEEN, so, b, CopyZone);
    Onward(UNSEEN, so + [CopyZone], b.(pc := CopyPreStation), CopyZone);
    Onward(UNSEEN, so + [CopyZone] + [CopyZone], b.(pc := CopyStation), CopyZone);
    assert so + [CopyZone] + [CopyZone] + [CopyZone] == TAIL;
  }

  lemma TailCounts(steps: seq<Step>)
    ensures QuietPolls(steps + TAIL, Station) == QuietPolls(steps, Station) + 1
  {
    CountAppend(steps, TAIL);
    assert TAIL[1..][1..][1..] == [CopyZone, CopyZone];
    assert QuietPolls(TAIL, Station) == QuietPolls(TAIL[1..], Station);
    assert QuietPolls(TAIL[1..][1..], Station) == 0;
  }

  /** An allowed run to the start of a cycle, and on to a snapshot of EMPTY zones with the train on the hill. */
  ghost predicate Misses(before: seq<Step>, during: seq<Step>) {
    && ConsistentStart(AT_THE_STATION) && AllowedRun(AT_THE_STATION, before)
    && var begin := After(AT_THE_STATION, before);
       && begin.pc == CopyLiftHill && AllowedRun(begin, during) && EndCycle !in during
       && var end := After(begin, during);
          && end.pc == AskMode && |end.trains| == 1 && end.trains[0].zone == LiftHill
          && Copies(end) == PerZone(Empty, Empty, Empty, Empty)
  }

  lemma MissesBy(before: seq<Step>, begin: World, first: seq<Step>)
    requires Leads(AT_THE_STATION, before, begin) && begin.pc == CopyLiftHill
    requires Leads(begin, first, UNSEEN) && EndCycle !in first
    ensures Misses(before, first + TAIL)
  {
    StationIsConsistent();
    TailIsMissed();
    hide AllowedRun, After, ConsistentStart;
    AndThen(begin, first, UNSEEN, TAIL, NOBODY_SEEN);
  }

  lemma CopiesTheHill(p: Position, hill: Block)
    requires hill == ARRIVED || hill == Vacant(Empty)
    ensures var s := Stage(CopyLiftHill, p, Quietened(499), hill);
            Allowed(s, CopyZone) && Next(s, CopyZone) == Stage(CopyRide, p, Quietened(499), hill)
  {
  }

  /**
   * A snapshot can miss a train that was never in a gap: its arrival on the hill is still unread when
   * the copying begins, and a single quiet poll of the station is enough.
   */
  lemma UnreadArrivalIsMissed() returns (before: seq<Step>, during: seq<Step>)
    ensures Misses(before, during) && NoGap(before + during) && QuietPolls(during, Station) == 1
  {
    var free := SetsFree();
    var leave := LeavesFrontFirst(CopyLiftHill);
    var quiet := GoesQuiet(CopyLiftHill, ON_THE_HILL, ARRIVED, 499);
    var left, begin := Stage(CopyLiftHill, ON_THE_HILL, Quietened(0), ARRIVED),
                       Stage(CopyLiftHill, ON_THE_HILL, Quietened(499), ARRIVED);
    AtTheStart(ON_THE_HILL, Quietened(499), ARRIVED);
    before := free + leave + quiet;
    during := [CopyZone] + TAIL;
    hide *;
    NoGapJoined(free, leave, quiet);
    AndThen(AT_THE_STATION, free, SET_FREE, leave, left);
    AndThen(AT_THE_STATION, free + leave, left, quiet, begin);
    CopiesTheHill(ON_THE_HILL, ARRIVED);
    OneStep(begin, CopyZone);
    MissesBy(before, begin, [CopyZone]);
    TailCounts([CopyZone]);
    NoPolls([CopyZone]);
    CopyHasNoGap(before);
  }

  lemma NoGapJoined(a: seq<Step>, b: seq<Step>, c: seq<Step>)
    requires NoGap(a) && NoGap(b) && NoGap(c)
    ensures NoGap(a + b + c)
  {
  }

  lemma CopyHasNoGap(before: seq<Step>)
    requires NoGap(before)
    ensures NoGap(before + ([CopyZone] + TAIL))
  {
  }

  lemma AtTheStart(p: Position, station: Block, hill: Block)
    ensures SET_FREE.(pc := CopyLiftHill) == SET_FREE && Stage(CopyLiftHill, p, station, hill).pc == CopyLiftHill
    ensures Stage(CopyLiftHill, p, station, hill).blocks.liftHill == hill
  {
  }

  lemma {:induction false} NoPolls(steps: seq<Step>)
    requires QuietPoll(Station) !in steps
    ensures QuietPolls(steps, Station) == 0
  {
    if steps != [] {
      NoPolls(steps[1..]);
    }
  }

  /** Nor is it enough that nothing is unread then, if the train is in the gap between station and hill. */
  lemma TrainInTheGapIsMissed() returns (before: seq<Step>, during: seq<Step>)
    ensures Misses(before, during) && QuietPolls(during, Station) == 1
    ensures After(AT_THE_STATION, before).blocks.liftHill.queue == []
  {
    var free := SetsFree();
    var leave := LeavesRearFirst();
    var quiet := GoesQuiet(CopyLiftHill, IN_THE_GAP, Vacant(Empty), 499);
    var left, begin := Stage(CopyLiftHill, IN_THE_GAP, Quietened(0), Vacant(Empty)),
                       Stage(CopyLiftHill, IN_THE_GAP, Quietened(499), Vacant(Empty));
    var copied := Stage(CopyRide, IN_THE_GAP, Quietened(499), Vacant(Empty));
    AtTheStart(IN_THE_GAP, Quietened(499), Vacant(Empty));
    before := free + leave + quiet;
    during := [CopyZone] + [Complete(0)] + TAIL;
    hide Stage, Next, Misses, QuietPolls, Allowed, AllowedRun, After, Quietened;
    AndThen(AT_THE_STATION, free, SET_FREE, leave, left);
    AndThen(AT_THE_STATION, free + leave, left, quiet, begin);
    CopiesTheHill(IN_THE_GAP, Vacant(Empty));
    OneStep(begin, CopyZone);
    ReachesTheHill();
    Onward(begin, [CopyZone], copied, Complete(0));
    MissesBy(before, begin, [CopyZone] + [Complete(0)]);
    TailCounts([CopyZone] + [Complete(0)]);
    NoPolls([CopyZone] + [Complete(0)]);
  }

  lemma ReachesTheHill()
    ensures var s := Stage(CopyRide, IN_THE_GAP, Quietened(499), Vacant(Empty));
            Allowed(s, Complete(0)) && Next(s, Complete(0)) == UNSEEN
  {
    var s := Stage(CopyRide, IN_THE_GAP, Quietened(499), Vacant(Empty));
    assert Moved(s, 0, ON_THE_HILL) == [ON_THE_HILL];
    assert [] + [RiseFirst] == [RiseFirst];
  }

  lemma FreeIsCopied()
    ensures SET_FREE.pc == CopyLiftHill && SET_FREE.blocks.liftHill.queue == []
    ensures Allowed(SET_FREE, CopyZone) && Next(SET_FREE, CopyZone) == SET_FREE.(pc := CopyRide)
  {
  }

  lemma NoGapLong(a: seq<Step>, b: seq<Step>, c: seq<Step>)
    requires NoGap(a) && NoGap(b) && NoGap(c)
    ensures NoGap(a + ([CopyZone] + b + c + TAIL))
  {
  }

  /** Nor that no train has left the station yet, if 500 quiet polls of the station fit in. */
  lemma LongCopyingMisses() returns (before: seq<Step>, during: seq<Step>)
    ensures Misses(before, during) && NoGap(before + during) && QuietPolls(during, Station) == 500
    ensures After(AT_THE_STATION, before).blocks.liftHill.queue == []
  {
    var free := SetsFree();
    var leave := LeavesFrontFirst(CopyRide);
    var quiet := GoesQuiet(CopyRide, ON_THE_HILL, ARRIVED, 499);
    var copied, left := SET_FREE.(pc := CopyRide), Stage(CopyRide, ON_THE_HILL, Quietened(0), ARRIVED);
    FreeIsCopied();
    before := free;
    var first := [CopyZone] + leave + quiet;
    during := first + TAIL;
    NoGapLong(free, leave, quiet);
    hide Stage, Next, Misses, QuietPolls, Allowed, AllowedRun, After, NoGap;
    OneStep(SET_FREE, CopyZone);
    AndThen(SET_FREE, [CopyZone], copied, leave, left);
    AndThen(SET_FREE, [CopyZone] + leave, left, quiet, UNSEEN);
    MissesBy(before, SET_FREE, first);
    TailCounts(first);
    NoPolls([CopyZone]);
    CountAppend([CopyZone], leave);
    CountAppend([CopyZone] + leave, quiet);
  }

  lemma StationIsConsistent()
    ensures ConsistentStart(AT_THE_STATION)
  {
    assert On(AT_THE_STATION, Station, Standing);
  }

  // ------------------------------------------- the program's own start, with trains on the ring

  /** A train nobody has recorded stands in the pre-station; another is at `p`, and `ride` is the ride's block. */
  function Unrecorded(p: Position, ride: Block): World {
    World([p, Position(PreStation, Standing)], PerZone(Vacant(Empty), Vacant(Empty), ride, Vacant(Empty)),
          MOTORS_OFF, BOOT, CopyLiftHill, [])
  }

  const POWER_UP: World := Unrecorded(Position(LiftHill, Between), Vacant(Empty))

  // The first train on the ride: its arrival unread, then read; at the second sensor, unread, then read.
  const RIDE_REACHED: World :=
    Unrecorded(Position(Ride, Approaching),
               Block(Monitor(Empty, 0, false), [RiseFirst], Empty, 1, 0, false, 0, false))
  const RIDE_ENTERING: World :=
    Unrecorded(Position(Ride, Approaching), Block(Monitor(Entering, 0, false), [], Empty, 1, 1, false, 0, false))
  const RIDE_STOPPED: World :=
    Unrecorded(Position(Ride, Standing),
               Block(Monitor(Entering, 0, false), [RiseSecond], Empty, 2, 1, false, 0, false))
  const RIDE_ENTERED: World :=
    Unrecorded(Position(Ride, Standing), Block(Monitor(Entered, 0, false), [], Empty, 2, 2, false, 0, false))

  lemma EntersTheRide() returns (steps: seq<Step>)
    ensures Leads(POWER_UP, steps, RIDE_ENTERED)
  {
    var a, b, c := RIDE_REACHED, RIDE_ENTERING, RIDE_STOPPED;
    hide *;
    RideArrives();
    RideReads();
    RideStands();
    NoSteps(POWER_UP);
    Onward(POWER_UP, [], POWER_UP, Complete(0));
    Onward(POWER_UP, [] + [Complete(0)], a, ReadEvent(Ride));
    Onward(POWER_UP, [] + [Complete(0)] + [ReadEvent(Ride)], b, Arrive(0));
    Onward(POWER_UP, [] + [Complete(0)] + [ReadEvent(Ride)] + [Arrive(0)], c, ReadEvent(Ride));
    steps := [] + [Complete(0)] + [ReadEvent(Ride)] + [Arrive(0)] + [ReadEvent(Ride)];
  }

  lemma RideReads()
    ensures Allowed(RIDE_REACHED, ReadEvent(Ride)) && Next(RIDE_REACHED, ReadEvent(Ride)) == RIDE_ENTERING
    ensures Allowed(RIDE_STOPPED, ReadEvent(Ride)) && Next(RIDE_STOPPED, ReadEvent(Ride)) == RIDE_ENTERED
  {
    OneRise();
    OneStop();
    assert [RiseFirst][1..] == [] && [RiseSecond][1..] == [];
    hide PollStep;
  }

  lemma OneStop()
    ensures PollStep(Monitor(Entering, 0, false), Batch([RiseSecond])) == Monitor(Entered, 0, false)
  {
    assert [RiseSecond][..0] == [];
    assert StepLines(Monitor(Entering, 0, false), []) == Monitor(Entering, 0, false);
  }

  lemma RideArrives()
    ensures Allowed(POWER_UP, Complete(0)) && Next(POWER_UP, Complete(0)) == RIDE_REACHED
  {
    assert Moved(POWER_UP, 0, Position(Ride, Approaching))
        == [Position(Ride, Approaching), Position(PreStation, Standing)];
    assert POWER_UP.blocks.ride.queue + [RiseFirst] == [RiseFirst];
  }

  lemma RideStands()
    ensures Allowed(RIDE_ENTERING, Arrive(0)) && Next(RIDE_ENTERING, Arrive(0)) == RIDE_STOPPED
  {
    var b := RIDE_ENTERING;
    assert Moved(b, 0, Position(Ride, Standing)) == [Position(Ride, Standing), Position(PreStation, Standing)];
    assert b.blocks.ride.queue + [RiseSecond] == [RiseSecond];
  }

  /** The cycle is over, and the train on the ride is let go towards the one in the pre-station. */
  const LET_GO: World :=
    RIDE_ENTERED.(memory := Memory(AUTOMATIC, 0), actuators := MOTORS_OFF.(ride := RIDE_GO),
                  blocks := RIDE_ENTERED.blocks.(
                    ride := Block(Monitor(Entered, 0, false), [], Entered, 2, 2, false, 0, true)))

  lemma SeenOnTheRide()
    ensures Copies(AllCopied(RIDE_ENTERED)) == PerZone(Empty, Empty, Entered, Empty)
    ensures var s := AfterAutomatic(RIDE_ENTERED); s == LET_GO.(actuators := s.actuators, memory := s.memory)
  {
    assert RIDE_ENTERED.trains[0] == Position(Ride, Standing);
    assert On(RIDE_ENTERED, Ride, Standing);
    hide ObeyAll, AfterCycle, SentIn;
  }

  lemma SentToTheRide(a: Actuators)
    ensures var z := PerZone(Empty, Empty, Entered, Empty);
            && ObeyAll(SentFor(z, 0), a) == PerZone(0, 0, RIDE_GO, PRESTATION_STOP)
            && StationAutomatic(z, 0).releaseGo == 0
  {
    FourCommands(a, LiftHillStop, StopStation, ReleasePreStation(PRESTATION_STOP), ReleaseRide(RIDE_GO));
    hide ObeyAll;
  }

  lemma LetsGo()
    ensures AfterAutomatic(RIDE_ENTERED) == LET_GO
  {
    SeenOnTheRide();
    Automatically(RIDE_ENTERED);
    SentToTheRide(RIDE_ENTERED.actuators);
    hide ObeyAll, AllCopied, AfterAutomatic, StationAutomatic, SentFor;
  }

  lemma RunsIn()
    ensures var s := Next(LET_GO, RearFirst(0));
            && Allowed(LET_GO, RearFirst(0)) && Allowed(s, Complete(0))
            && Next(s, Complete(0)).trains == [Position(PreStation, Approaching), Position(PreStation, Standing)]
  {
    assert Moved(LET_GO, 0, Position(Ride, Between)) == [Position(Ride, Between), Position(PreStation, Standing)];
    var s := Next(LET_GO, RearFirst(0));
    assert Moved(s, 0, Position(PreStation, Approaching))
        == [Position(PreStation, Approaching), Position(PreStation, Standing)];
  }

  /** Started as the program starts, every zone EMPTY. */
  predicate AllEmpty(s: World) {
    forall z: Zone :: s.blocks.Get(z) == Vacant(Empty)
  }

  /**
   * Consistent start cannot be dropped. The program starts with every zone EMPTY; with a train
   * already standing in the pre-station, and another rolling off the hill, an otherwise allowed run
   * in AUTOMATIC releases the ride brake and ends with both trains in the pre-station.
   */
  lemma UnrecordedTrainIsHit() returns (steps: seq<Step>)
    ensures AllEmpty(POWER_UP) && POWER_UP.actuators == MOTORS_OFF && POWER_UP.memory == BOOT
    ensures Safe(POWER_UP) && AllowedRun(POWER_UP, steps) && !Safe(After(POWER_UP, steps))
  {
    var a := EntersTheRide();
    assert RIDE_ENTERED.pc == CopyLiftHill && AllDone(RIDE_ENTERED);
    var b := WholeCycle(RIDE_ENTERED);
    LetsGo();
    RunsIn();
    AndThen(POWER_UP, a, RIDE_ENTERED, b, LET_GO);
    Onward(POWER_UP, a + b, LET_GO, RearFirst(0));
    var s := Next(LET_GO, RearFirst(0));
    Onward(POWER_UP, a + b + [RearFirst(0)], s, Complete(0));
    steps := a + b + [RearFirst(0)] + [Complete(0)];
    var end := Next(s, Complete(0));
    assert Occupies(end.trains[0], PreStation) && Occupies(end.trains[1], PreStation);
    hide Next, Allowed, AllowedRun, After;
  }
}
