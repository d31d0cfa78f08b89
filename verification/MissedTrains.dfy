/** Exactly when a snapshot misses a train, and how many trains it accounts for. */
module MissedTrains {
  import opened Coaster
  import opened BrakeZones
  import opened Interlock
  import opened ClosedLoop
  import opened BlockSafety
  import opened Sampling
  import opened Progress

  // ------------------------------------------------------------ after a slip the station is empty

  /** The train standing in the pre-station may leave, now or while what is pending is obeyed. */
  predicate LetOut(s: World) {
    On(s, PreStation, Standing) && MayGo(s, PreStation)
  }

  /** Nothing has happened in the station, and the pre-station has nobody who could come. */
  predicate NobodyEnters(s: World) {
    s.blocks.station.happened == 0 && !Leaving(s, PreStation) && !LetOut(s)
  }

  lemma SlipViews(here: View, ahead: View, far: View, behind: View)
    requires Ring(here, ahead, far, behind) && here.happened == 3
    ensures !behind.Leaving() && !behind.Cleared()
  {
  }

  lemma PreStationView(s: World)
    ensures var v := ViewOf(s, PreStation);
            v.Leaving() == Leaving(s, PreStation) && v.Cleared() == LetOut(s)
  {
    hide On, Settled, Free, BrakeClosed, MayGo;
  }

  /** When the station is timed out, nobody is on the way into it. */
  lemma VacatingEmpties(s: World)
    requires Inv(s) && Allowed(s, QuietPoll(Station)) && WouldVacate(s.blocks.station.monitor)
    ensures NobodyEnters(Next(s, QuietPoll(Station)))
  {
    BeforeAt(s, Station);
    QuietRecorded(s.blocks.station);
    PreStationView(s);
    var v, w, x, y := ViewOf(s, Station), ViewOf(s, LiftHill), ViewOf(s, Ride), ViewOf(s, PreStation);
    assert Ring(v, w, x, y) && v.happened == 3;
    SlipViews(v, w, x, y);
    hide Inv, ViewOf, Ring, Recorded, EverFree, Allowed, Handover, PollStep;
  }

  lemma NobodyInTheStation(s: World, t: nat)
    requires Inv(s) && NobodyEnters(s) && t < |s.trains|
    ensures s.trains[t].zone != Station
    ensures s.trains[t].zone == PreStation ==>
              s.trains[t].phase == Approaching
              || (s.trains[t].phase == Standing && !(s.blocks.preStation.acted && Free(PreStation, s.actuators)))
  {
    TrainHappened(s, t);
    assert s.trains[t] in s.trains;
    if s.blocks.preStation.acted && Free(PreStation, s.actuators) {
      FreeMayGo(s, PreStation);
      PreStationView(s);
    }
    hide Inv, ViewOf, Free, MayGo;
  }

  lemma MoveBlocks(s: World, step: Step)
    requires Enabled(s, step) && MovesTrain(step) && s.trains[step.train].zone != Station
    requires s.trains[step.train].zone == PreStation ==> step.Arrive?
    ensures var s' := Next(s, step);
            && s'.blocks.station == s.blocks.station && s'.actuators == s.actuators && s'.pending == s.pending
            && (MayGo(s', PreStation) ==> MayGo(s, PreStation) && s.trains[step.train].zone != PreStation)
  {
    MoveIs(s, step);
    var p := s.trains[step.train];
    var b, c := s.blocks.Get(p.zone), s.blocks.Get(p.zone.Next());
    hide Next, Enabled, Free, Put;
    ShiftedBlocks(s, step.train, MoveTo(p, step), MoveHere(b, p.phase, step), MoveAhead(c, p.phase, step), Station);
    ShiftedBlocks(s, step.train, MoveTo(p, step), MoveHere(b, p.phase, step), MoveAhead(c, p.phase, step), PreStation);
    hide EverFree;
  }

  lemma MovePositions(s: World, step: Step)
    requires DistinctZones(s) && Enabled(s, step) && MovesTrain(step)
    requires s.trains[step.train].zone == PreStation ==> step.Arrive?
    ensures var s' := Next(s, step);
            && (Leaving(s', PreStation) ==> Leaving(s, PreStation))
            && (On(s', PreStation, Standing) ==> On(s, PreStation, Standing) || s.trains[step.train].zone == PreStation)
  {
    MoveIs(s, step);
    var p := s.trains[step.train];
    MovedOn(s, step.train, MoveTo(p, step));
    hide Next, Enabled, Free, Put, MoveHere, MoveAhead, DistinctZones;
  }

  lemma MoveKeepsOut(s: World, step: Step)
    requires Inv(s) && Allowed(s, step) && MovesTrain(step) && NobodyEnters(s)
    ensures NobodyEnters(Next(s, step))
  {
    NobodyInTheStation(s, step.train);
    if step.RearFirst? || step.FrontFirst? {
      Departing(s, step, step.train);
    }
    assert DistinctZones(s) && Enabled(s, step);
    hide Inv, Free, Allowed, Handover, FastController, CommandingMode, Leaving, On, MayGo;
    assert s.trains[step.train].zone == PreStation ==> step.Arrive?;
    hide Enabled, Next;
    MoveBlocks(s, step);
    MovePositions(s, step);
  }

  lemma MonitorKeepsOut(s: World, step: Step)
    requires Inv(s) && Enabled(s, step) && ByMonitor(step) && NobodyEnters(s)
    ensures NobodyEnters(Next(s, step))
  {
    NothingHappens(s, step);
    MonitorFrame(s, step, PreStation);
    hide Inv, Next, EverFree, Enabled;
  }

  lemma NothingHappens(s: World, step: Step)
    requires Inv(s) && Enabled(s, step) && ByMonitor(step) && s.blocks.station.happened == 0
    ensures Next(s, step).blocks.station.happened == 0
  {
    assert Recorded(s.blocks.station);
    hide Inv, Next, Recorded, PollStep, Enabled;
    BlockSteps(s, step, Station);
  }

  /** Once nobody can come, the cycle copies the station EMPTY. */
  ghost predicate StationWillShowEmpty(s: World) {
    if Copied(s.pc, Station) then s.blocks.station.copy == Empty else NobodyEnters(s)
  }

  lemma CopyShowsEmpty(s: World)
    requires Inv(s) && s.pc != AskMode && s.pc != Sending && NobodyEnters(s)
    ensures StationWillShowEmpty(AfterCopying(s))
  {
    var z := CopyTarget(s.pc);
    assert Recorded(s.blocks.station);
    PutGet(s.blocks, z, AfterCopying(s).blocks.Get(z));
    hide Inv, Recorded, EverFree;
  }

  lemma StationStep(s: World, step: Step)
    requires Inv(s) && Allowed(s, step) && step != EndCycle && StationWillShowEmpty(s)
    ensures StationWillShowEmpty(Next(s, step))
  {
    hide Inv, NobodyEnters, Handover, FastController, CommandingMode;
    if Copied(s.pc, Station) {
      StationCopyKept(s, step);
    } else if MovesTrain(step) {
      MoveKeepsOut(s, step);
      MoveKeepsPc(s, step);
    } else if ByMonitor(step) {
      MonitorKeepsOut(s, step);
      MonitorFrame(s, step, Station);
    } else if step == CopyZone {
      CopyShowsEmpty(s);
    } else {
      assert step == ObeyNext;
      ObeyKeepsOut(s);
      assert Next(s, step) == AfterObeying(s);
    }
  }

  lemma StillCleared(v: View, w: View)
    requires ObeyedOn(v, w)
    ensures w.Leaving() == v.Leaving() && (w.Cleared() ==> v.Cleared()) && w.happened == v.happened
  {
  }

  lemma ObeyKeepsOut(s: World)
    requires Inv(s) && s.pending != [] && NobodyEnters(s)
    ensures NobodyEnters(AfterObeying(s))
  {
    var s' := AfterObeying(s);
    assert s'.blocks.station.happened == s.blocks.station.happened;
    hide Inv, ViewOf, AfterObeying, LetOut, Leaving, ObeyedOn;
    PreStationView(s);
    PreStationView(s');
    ObeyViews(s, PreStation);
    StillCleared(ViewOf(s, PreStation), ViewOf(s', PreStation));
  }

  lemma MoveKeepsPc(s: World, step: Step)
    requires Enabled(s, step) && MovesTrain(step)
    ensures Next(s, step).pc == s.pc
  {
    hide Emit, Unseen, Put, Free;
  }

  lemma StationCopyKept(s: World, step: Step)
    requires Enabled(s, step) && Copied(s.pc, Station) && step != EndCycle
    ensures Copied(Next(s, step).pc, Station) && Next(s, step).blocks.station.copy == s.blocks.station.copy
  {
    if MovesTrain(step) {
      MoveIs(s, step);
      MoveKeepsPc(s, step);
      var p := s.trains[step.train];
      var b, c := s.blocks.Get(p.zone), s.blocks.Get(p.zone.Next());
      ShiftedBlocks(s, step.train, MoveTo(p, step), MoveHere(b, p.phase, step), MoveAhead(c, p.phase, step), Station);
      hide Next, Shifted, Free;
    } else if ByMonitor(step) {
      MonitorFrame(s, step, Station);
      hide Next;
    } else {
      hide Obey, SentIn, AfterCycle;
    }
  }

  lemma {:induction false} StaysEmpty(s: World, steps: seq<Step>)
    requires Inv(s) && AllowedRun(s, steps) && EndCycle !in steps && StationWillShowEmpty(s)
    ensures StationWillShowEmpty(After(s, steps))
    decreases steps
  {
    hide Inv, Next, Enabled, Handover, FastController, CommandingMode, StationWillShowEmpty;
    if steps != [] {
      StepKeeps(s, steps[0]);
      StationStep(s, steps[0]);
      StaysEmpty(Next(s, steps[0]), steps[1..]);
    }
  }

  lemma {:induction false} SlipHides(s: World, steps: seq<Step>)
    requires Inv(s) && AllowedRun(s, steps) && EndCycle !in steps && !NoSlip(s, steps)
    ensures StationWillShowEmpty(After(s, steps))
    decreases steps
  {
    hide Inv, Next, Enabled, Handover, FastController, CommandingMode, Slips, StationWillShowEmpty;
    StepKeeps(s, steps[0]);
    if Slips(s, steps[0]) {
      SlipStep(s, steps[0]);
      StaysEmpty(Next(s, steps[0]), steps[1..]);
    } else {
      SlipHides(Next(s, steps[0]), steps[1..]);
    }
  }

  lemma SlipStep(s: World, step: Step)
    requires Inv(s) && Allowed(s, step) && Slips(s, step)
    ensures StationWillShowEmpty(Next(s, step))
  {
    VacatingEmpties(s);
    MonitorFrame(s, step, Station);
    hide Inv, Next, NobodyEnters, Allowed;
  }

  /**
   * Exactly when a snapshot misses a train. Within one cycle of any run, once all four zones are
   * copied, a train on the lift hill is missing from the snapshot if and only if the hill is shown
   * EMPTY and the station was timed out between the copies of the two; a train anywhere else never is.
   */
  lemma MissedExactly(s: World, before: seq<Step>, during: seq<Step>, t: nat)
    requires ConsistentStart(s) && AllowedRun(s, before)
    requires var begin := After(s, before);
             && begin.pc == CopyLiftHill && AllowedRun(begin, during) && EndCycle !in during
             && Copied(After(begin, during).pc, Station) && t < |After(begin, during).trains|
    ensures var begin := After(s, before);
            var end := After(begin, during);
            !ShownBy(Copies(end), end.trains[t]) <==>
            end.trains[t].zone == LiftHill && Copies(end).liftHill == Empty && !NoSlip(begin, during)
  {
    NoTrainVanishes(s, before, during, t);
    StartIsGood(s);
    RunKeeps(s, before);
    hide Inv, ConsistentStart, AllowedRun, After, NoSlip;
    var begin := After(s, before);
    if !NoSlip(begin, during) {
      SlipHides(begin, during);
    }
  }

  // --------------------------------------------------------- what rules it out, seen from outside

  /** No train can move up to the lift hill before this cycle ends: one that comes to stand now must be seen first. */
  predicate NobodyMovesUp(s: World) {
    var b := s.blocks.station;
    !Leaving(s, Station) && !(On(s, Station, Standing) && (b.seen || !Undecided(b)))
  }

  /** Nobody is in the station, nor can come before it is copied: it still shows an exit, or was timed out since. */
  predicate StationShut(s: World) {
    !Home(s, Station) && (s.blocks.station.happened == 3 || NobodyEnters(s))
  }

  predicate NobodyFollows(s: World) {
    if Copied(s.pc, Station) then NobodyMovesUp(s) else StationShut(s)
  }

  lemma FollowsMovesUp(s: World)
    requires NobodyFollows(s)
    ensures NobodyMovesUp(s)
  {
    hide NobodyEnters;
  }

  /** A train on the lift hill has been recorded there, and shows in the copy if there is one. */
  predicate HillKnown(s: World) {
    Home(s, LiftHill) ==>
      if Copied(s.pc, LiftHill) then s.blocks.liftHill.copy != Empty else s.blocks.liftHill.monitor.internal != Empty
  }

  lemma StandingStays(s: World, step: Step)
    requires Allowed(s, step) && MovesTrain(step) && NobodyMovesUp(s)
    ensures step.train < |s.trains| && (s.trains[step.train].zone == Station ==> step.Arrive?)
  {
    var t := step.train;
    assert t < |s.trains| && s.trains[t] in s.trains;
    if step.RearFirst? || step.FrontFirst? {
      Departing(s, step, t);
    }
    hide Free, Handover, FastController, CommandingMode;
  }

  lemma MoveOfTrains(s: World, step: Step)
    requires DistinctZones(s) && Enabled(s, step) && MovesTrain(step) && NobodyMovesUp(s)
    requires s.trains[step.train].zone == Station ==> step.Arrive?
    ensures var s' := Next(s, step);
            && (Home(s', LiftHill) ==> Home(s, LiftHill)) && !Leaving(s', Station)
            && (On(s', Station, Standing) ==> On(s, Station, Standing) || s.trains[step.train].zone == Station)
  {
    MoveIs(s, step);
    var p := s.trains[step.train];
    MovedOn(s, step.train, MoveTo(p, step));
    assert p in s.trains;
    hide Next, Enabled, Free, Put, MoveHere, MoveAhead, DistinctZones;
  }

  lemma MoveOfBlocks(s: World, step: Step)
    requires Enabled(s, step) && MovesTrain(step)
    requires s.trains[step.train].zone == Station ==> step.Arrive?
    ensures var s' := Next(s, step);
            && s'.pc == s.pc && s'.blocks.liftHill.copy == s.blocks.liftHill.copy
            && s'.blocks.liftHill.monitor == s.blocks.liftHill.monitor
            && var b, b' := s.blocks.station, s'.blocks.station;
               b'.seen || !Undecided(b') ==> (b.seen || !Undecided(b)) && s.trains[step.train].zone != Station
  {
    MoveIs(s, step);
    MoveKeepsPc(s, step);
    var p := s.trains[step.train];
    var b, c := s.blocks.Get(p.zone), s.blocks.Get(p.zone.Next());
    hide Next, Enabled, Free, Put;
    ShiftedBlocks(s, step.train, MoveTo(p, step), MoveHere(b, p.phase, step), MoveAhead(c, p.phase, step), Station);
    ShiftedBlocks(s, step.train, MoveTo(p, step), MoveHere(b, p.phase, step), MoveAhead(c, p.phase, step), LiftHill);
  }

  lemma MoveShows(s: World, step: Step)
    requires Inv(s) && Allowed(s, step) && MovesTrain(step) && NobodyMovesUp(s) && HillKnown(s)
    ensures NobodyMovesUp(Next(s, step)) && HillKnown(Next(s, step)) && Next(s, step).pc == s.pc
  {
    StandingStays(s, step);
    assert DistinctZones(s) && Enabled(s, step);
    hide Inv, Allowed, Enabled, Next, Home, Leaving, On, DistinctZones;
    MoveOfTrains(s, step);
    MoveOfBlocks(s, step);
  }

  lemma HomelessStays(s: World, step: Step)
    requires DistinctZones(s) && Enabled(s, step) && MovesTrain(step) && !Home(s, Station)
    requires s.trains[step.train].zone == PreStation ==> step.Arrive?
    ensures !Home(Next(s, step), Station)
  {
    MoveIs(s, step);
    var p := s.trains[step.train];
    MovedOn(s, step.train, MoveTo(p, step));
    assert p in s.trains;
    hide Next, Enabled, Free, Put, MoveHere, MoveAhead, DistinctZones;
    assert p == Position(p.zone, p.phase);
    assert p.zone != Station;
  }

  /** While the station shows an exit, a train in the pre-station stays there. */
  lemma ShutStays(s: World, step: Step)
    requires Inv(s) && Allowed(s, step) && MovesTrain(step) && s.blocks.station.happened == 3
    ensures step.train < |s.trains| && (s.trains[step.train].zone == PreStation ==> step.Arrive?)
  {
    MoveEmits(s, step);
    BeforeAt(s, Station);
    var t := step.train;
    assert s.trains[t] in s.trains;
    var v, w, x, y := ViewOf(s, Station), ViewOf(s, LiftHill), ViewOf(s, Ride), ViewOf(s, PreStation);
    PreStationView(s);
    SlipViews(v, w, x, y);
    if step.RearFirst? || step.FrontFirst? {
      Departing(s, step, t);
    }
    hide Inv, ViewOf, Ring, Recorded, Free, Settled, Handover, FastController, CommandingMode;
  }

  lemma MoveKeepsShut(s: World, step: Step)
    requires Inv(s) && Allowed(s, step) && MovesTrain(step) && StationShut(s)
    ensures StationShut(Next(s, step)) && Next(s, step).pc == s.pc
  {
    assert DistinctZones(s) && Enabled(s, step);
    MoveKeepsPc(s, step);
    hide Inv, Allowed, Enabled, Next, NobodyEnters, Home, DistinctZones;
    StepKeeps(s, step);
    if s.blocks.station.happened == 3 {
      ShutStays(s, step);
      NotHome(s, step.train);
      MoveBlocks(s, step);
      HomelessStays(s, step);
    } else {
      MoveKeepsOut(s, step);
      NobodyHome(Next(s, step));
    }
  }

  lemma NotHome(s: World, t: nat)
    requires !Home(s, Station) && t < |s.trains|
    ensures s.trains[t].zone != Station
  {
    var p := s.trains[t];
    assert p in s.trains && p == Position(p.zone, p.phase);
    match p.phase {
      case Approaching => assert !On(s, Station, Approaching);
      case Standing => assert !On(s, Station, Standing);
      case Between => assert !On(s, Station, Between);
      case Spanning => assert !On(s, Station, Spanning);
    }
  }

  /** Nobody is in a zone where nothing has happened. */
  lemma NobodyHome(s: World)
    requires Inv(s) && NobodyEnters(s)
    ensures !Home(s, Station)
  {
    hide Inv, LetOut;
    forall t: nat | t < |s.trains|
      ensures s.trains[t].zone != Station
    {
      TrainHappened(s, t);
    }
  }

  lemma HomeAfterFall(here: View, ahead: View, far: View, behind: View)
    requires Ring(here, ahead, far, behind)
    requires here.happened == 3 && here.Home()
    ensures here.between
  {
  }

  /** A zone is not timed out while its train is still home. */
  lemma HomeIsNotVacated(s: World, z: Zone)
    requires Inv(s) && Home(s, z) && Allowed(s, QuietPoll(z))
    ensures !WouldVacate(s.blocks.Get(z).monitor)
  {
    RingAt(s, z);
    QuietRecorded(s.blocks.Get(z));
    var v, w, x, y := ViewOf(s, z), ViewOf(s, z.Next()), ViewOf(s, z.Next().Next()), ViewOf(s, z.Prev());
    assert Ring(v, w, x, y) && v.Home() == Home(s, z) && v.between == On(s, z, Between);
    assert v.happened == s.blocks.Get(z).happened;
    hide Inv, ViewOf, Ring, Recorded, Enabled, FastController, CommandingMode, PollStep, Home, On;
    if v.happened == 3 {
      HomeAfterFall(v, w, x, y);
    }
  }

  lemma StaysRecorded(b: Block, b': Block)
    requires Recorded(b) && Recorded(b') && b.monitor.internal != Empty && b.read <= b'.read
    ensures b'.monitor.internal != Empty
  {
  }

  lemma ReadOnly(s: World, step: Step, b: Block, b': Block)
    requires BlockStep(s, step, LiftHill, b, b') && ByMonitor(step) && b == s.blocks.liftHill && Enabled(s, step)
    requires step == QuietPoll(LiftHill) ==> !WouldVacate(b.monitor)
    ensures b.read <= b'.read
  {
    hide PollStep;
  }

  lemma MonitorEnabled(s: World, step: Step)
    requires Allowed(s, step) && ByMonitor(step)
    ensures Enabled(s, step) && !MovesTrain(step)
  {
    hide Enabled;
  }

  /** The lift hill's monitor does not go back to EMPTY while a train is home there. */
  lemma HillStaysRecorded(s: World, step: Step)
    requires Inv(s) && Allowed(s, step) && ByMonitor(step) && Home(s, LiftHill)
    ensures s.blocks.liftHill.monitor.internal != Empty ==> Next(s, step).blocks.liftHill.monitor.internal != Empty
  {
    var b, b' := s.blocks.liftHill, Next(s, step).blocks.liftHill;
    hide *;
    StepKeeps(s, step);
    HillRecorded(s);
    MonitorEnabled(s, step);
    HillRecorded(Next(s, step));
    BlockSteps(s, step, LiftHill);
    if step == QuietPoll(LiftHill) {
      HomeIsNotVacated(s, LiftHill);
    }
    ReadOnly(s, step, b, b');
    if b.monitor.internal != Empty {
      StaysRecorded(b, b');
    }
  }

  lemma HillRecorded(s: World)
    requires Inv(s)
    ensures Recorded(s.blocks.liftHill) && s.blocks.liftHill == s.blocks.Get(LiftHill)
  {
    assert Recorded(s.blocks.Get(LiftHill));
  }

  lemma MonitorShows(s: World, step: Step)
    requires Inv(s) && Allowed(s, step) && ByMonitor(step) && NobodyMovesUp(s) && HillKnown(s)
    ensures NobodyMovesUp(Next(s, step)) && HillKnown(Next(s, step)) && Next(s, step).pc == s.pc
  {
    assert Enabled(s, step);
    hide Inv, Next, Allowed, Home, Leaving, On, Enabled;
    MonitorFrame(s, step, Station);
    MonitorFrame(s, step, LiftHill);
    SameTrains(s, Next(s, step));
    if Home(s, LiftHill) {
      HillStaysRecorded(s, step);
    }
  }

  lemma MonitorKeepsShut(s: World, step: Step)
    requires Inv(s) && Allowed(s, step) && ByMonitor(step) && StationShut(s)
    ensures StationShut(Next(s, step))
  {
    assert Enabled(s, step);
    MonitorFrame(s, step, Station);
    BlockSteps(s, step, Station);
    hide Inv, Next, Allowed, Home, Enabled, NobodyEnters, PollStep;
    SameTrains(s, Next(s, step));
    if NobodyEnters(s) {
      MonitorKeepsOut(s, step);
    } else if step == QuietPoll(Station) && WouldVacate(s.blocks.station.monitor) {
      VacatingEmpties(s);
    }
  }

  lemma ControlShows(s: World, step: Step)
    requires Allowed(s, step) && !MovesTrain(step) && !ByMonitor(step) && step != EndCycle
    requires HillKnown(s)
    ensures HillKnown(Next(s, step)) && Next(s, step).trains == s.trains
  {
    hide Home, Leaving, On, SentIn, AfterCycle, Obey;
    if step == CopyZone {
      PutGet(s.blocks, CopyTarget(s.pc), Next(s, step).blocks.Get(CopyTarget(s.pc)));
    }
    SameTrains(s, Next(s, step));
  }

  lemma CopyFollows(s: World)
    requires Inv(s) && s.pc != AskMode && s.pc != Sending && NobodyFollows(s)
    ensures NobodyFollows(AfterCopying(s))
  {
    var z, s' := CopyTarget(s.pc), AfterCopying(s);
    PutGet(s.blocks, z, s'.blocks.Get(z));
    SameTrains(s, s');
    CopyTargetFacts(s.pc);
    assert s'.pending == s.pending && s'.actuators == s.actuators;
    hide Inv, Home, Leaving, EverFree;
  }

  lemma DecidingFollows(s: World, step: Step)
    requires Allowed(s, step) && step.HearMode? && NobodyFollows(s)
    ensures NobodyFollows(Next(s, step))
  {
    SameTrains(s, Next(s, step));
    hide Home, Leaving, On, SentIn, AfterCycle;
  }

  lemma ObeyFollows(s: World)
    requires Inv(s) && s.pending != [] && NobodyFollows(s)
    ensures NobodyFollows(AfterObeying(s))
  {
    SameTrains(s, AfterObeying(s));
    if NobodyEnters(s) {
      ObeyKeepsOut(s);
    }
    hide Inv, Home, Leaving, On, Obey, NobodyEnters;
  }

  lemma SameTrains(s: World, s': World)
    requires s'.trains == s.trains
    ensures Home(s', LiftHill) == Home(s, LiftHill) && Leaving(s', Station) == Leaving(s, Station)
    ensures On(s', Station, Standing) == On(s, Station, Standing) && Home(s', Station) == Home(s, Station)
    ensures Leaving(s', PreStation) == Leaving(s, PreStation)
    ensures On(s', PreStation, Standing) == On(s, PreStation, Standing)
  {
  }

  lemma ShowStep(s: World, step: Step)
    requires Inv(s) && Allowed(s, step) && step != EndCycle && NobodyFollows(s) && HillKnown(s)
    ensures NobodyFollows(Next(s, step)) && HillKnown(Next(s, step))
  {
    FollowsMovesUp(s);
    hide Inv, NobodyMovesUp, StationShut, HillKnown, Handover, FastController, CommandingMode, Copied;
    if MovesTrain(step) {
      MoveShows(s, step);
      if !Copied(s.pc, Station) {
        MoveKeepsShut(s, step);
      }
    } else if ByMonitor(step) {
      MonitorShows(s, step);
      if !Copied(s.pc, Station) {
        MonitorKeepsShut(s, step);
      }
    } else {
      ControlShows(s, step);
      if step == CopyZone {
        CopyFollows(s);
      } else if step == ObeyNext {
        ObeyFollows(s);
      } else {
        DecidingFollows(s, step);
      }
    }
  }

  lemma {:induction false} CycleShows(s: World, steps: seq<Step>)
    requires Inv(s) && AllowedRun(s, steps) && EndCycle !in steps && NobodyFollows(s) && HillKnown(s)
    ensures HillKnown(After(s, steps))
    decreases steps
  {
    hide Inv, Next, Enabled, Handover, FastController, CommandingMode, NobodyFollows, HillKnown;
    if steps != [] {
      StepKeeps(s, steps[0]);
      ShowStep(s, steps[0]);
      CycleShows(Next(s, steps[0]), steps[1..]);
    }
  }

  /** The station's last edge was an exit, with nobody in the gap: whoever left it is on the hill by now. */
  lemma ExitMeansMovedUp(s: World)
    requires Inv(s) && s.blocks.station.monitor.internal == Entered && s.blocks.station.monitor.fallLast
    requires !On(s, Station, Between)
    ensures StationShut(s)
  {
    RingAt(s, Station);
    var b := s.blocks.station;
    assert Recorded(b) && b.happened == 3;
    var v, w, x, y := ViewOf(s, Station), ViewOf(s, LiftHill), ViewOf(s, Ride), ViewOf(s, PreStation);
    assert Ring(v, w, x, y) && v.Home() == Home(s, Station) && v.between == On(s, Station, Between);
    assert v.happened == b.happened;
    hide Inv, ViewOf, Ring, Recorded, On, NobodyEnters;
    if v.Home() {
      HomeAfterFall(v, w, x, y);
    }
  }

  lemma ArrivalIsRead(s: World)
    requires Inv(s) && s.pc == CopyLiftHill && RiseFirst !in s.blocks.liftHill.queue
    ensures HillKnown(s)
  {
    var b := s.blocks.liftHill;
    assert Recorded(b);
    if Home(s, LiftHill) {
      var t :| 0 <= t < |s.trains| && s.trains[t].zone == LiftHill;
      TrainHappened(s, t);
      if b.read == 0 {
        UnreadArrival(b);
      }
    }
    hide Inv;
  }

  /**
   * No snapshot misses a train if three things hold, each of which can be seen from outside the
   * control thread: when the copying begins no arrival on the hill is unread and no train is in the
   * gap behind the station, and fewer than 500 of the station's polls are quiet before it is over.
   */
  lemma QuickSnapshotShowsAll(s: World, before: seq<Step>, during: seq<Step>, t: nat)
    requires ConsistentStart(s) && AllowedRun(s, before)
    requires var begin := After(s, before);
             && begin.pc == CopyLiftHill && AllowedRun(begin, during) && EndCycle !in during
             && Copied(After(begin, during).pc, Station) && t < |After(begin, during).trains|
    requires var begin := After(s, before);
             !On(begin, Station, Between) && RiseFirst !in begin.blocks.liftHill.queue
    requires QuietPolls(during, Station) < QUIET_POLLS_TO_VACATE
    ensures var end := After(After(s, before), during); ShownBy(Copies(end), end.trains[t])
  {
    StartIsGood(s);
    RunKeeps(s, before);
    var begin := After(s, before);
    var end := After(begin, during);
    var m := begin.blocks.station.monitor;
    hide Inv, ConsistentStart, AllowedRun, After, NoSlip, QuietPolls, ShownBy, Copies, On, StationShut, HillKnown;
    MissedExactly(s, before, during, t);
    if m.internal == Entered && m.fallLast {
      ExitMeansMovedUp(begin);
      ArrivalIsRead(begin);
      CycleShows(begin, during);
      if end.trains[t].zone == LiftHill {
        KnownIsCopied(end, t);
      }
    } else {
      ShortSnapshot(begin, during, 0);
    }
  }

  lemma KnownIsCopied(s: World, t: nat)
    requires HillKnown(s) && Copied(s.pc, Station) && t < |s.trains| && s.trains[t].zone == LiftHill
    ensures Copies(s).liftHill != Empty
  {
    var p := s.trains[t];
    assert p in s.trains && p == Position(LiftHill, p.phase);
    assert On(s, LiftHill, p.phase);
    match p.phase {
      case Approaching => assert Home(s, LiftHill);
      case Standing => assert Home(s, LiftHill);
      case Between => assert Leaving(s, LiftHill);
      case Spanning => assert Leaving(s, LiftHill);
    }
    assert Copied(s.pc, LiftHill);
  }

  // -------------------------------------------------------------- how many trains are accounted for

  /** The zone that shows a train in a snapshot: its own, or else the one it came from. */
  function Shower(zones: Snapshot, p: Position): Zone {
    if zones.Get(p.zone) != Empty then p.zone else p.zone.Prev()
  }

  /** Nobody is in a zone that still shows the train of the zone ahead, which its own copy misses. */
  lemma NoneBehind(here: View, ahead: View, far: View, behind: View)
    requires Ring(here, ahead, far, behind)
    requires here.copied && ahead.copied && Followed(here, ahead) && ahead.Home() && ahead.copy == Empty
    ensures !here.Home()
  {
  }

  /** Two trains in neighbouring zones, both copied, as the views show them. */
  lemma NeighbourViews(s: World, t: nat, u: nat)
    requires Inv(s) && Copied(s.pc, Station) && t < |s.trains| && u < |s.trains|
    requires s.trains[u].zone == s.trains[t].zone.Next()
    ensures var z := s.trains[t].zone;
            var v, w := ViewOf(s, z), ViewOf(s, z.Next());
            v.Home() && w.Home() && v.copied && w.copied && w.copy == Copies(s).Get(z.Next())
  {
    var z := s.trains[t].zone;
    hide Inv, ViewOf, Copies, Copied;
    HomeView(s, t);
    HomeView(s, u);
    CopyView(s, z);
    CopyView(s, z.Next());
  }

  lemma NeighbourFollowed(s: World, z: Zone)
    requires Tells(s, true) && Copied(s.pc, Station)
    ensures Followed(ViewOf(s, z), ViewOf(s, z.Next()))
  {
    assert z.Next().Prev() == z;
    hide ViewOf, Followed, Tells, TellsFrom, Copied;
    TellsFromAnywhere(s, true, Station, z.Next());
    FollowedHere(s, z.Next(), true);
  }

  lemma ShowersDiffer(s: World, t: nat, u: nat)
    requires Inv(s) && Tells(s, true) && Copied(s.pc, Station) && t < |s.trains| && u < |s.trains|
    requires s.trains[u].zone == s.trains[t].zone.Next()
    ensures Copies(s).Get(s.trains[u].zone) != Empty
  {
    var z := s.trains[t].zone;
    var v, w, x, y := ViewOf(s, z), ViewOf(s, z.Next()), ViewOf(s, z.Next().Next()), ViewOf(s, z.Prev());
    hide *;
    NeighbourViews(s, t, u);
    NeighbourFollowed(s, z);
    RingAt(s, z);
    if w.copy == Empty {
      NoneBehind(v, w, x, y);
    }
  }

  lemma DistinctShowers(s: World, t: nat, u: nat)
    requires Inv(s) && Tells(s, true) && Copied(s.pc, Station) && t < u < |s.trains|
    ensures Shower(Copies(s), s.trains[t]) != Shower(Copies(s), s.trains[u])
  {
    var y, z := s.trains[t].zone, s.trains[u].zone;
    assert y != z;
    if z == y.Next() {
      ShowersDiffer(s, t, u);
    }
    if y == z.Next() {
      ShowersDiffer(s, u, t);
    }
    hide Inv, Copies, Tells;
  }

  function Occupied(zones: Snapshot): (shown: set<Zone>)
    ensures forall z: Zone :: z in shown <==> zones.Get(z) != Empty
  {
    set z: Zone | z in {Station, LiftHill, Ride, PreStation} && zones.Get(z) != Empty
  }

  lemma {:induction false} AsMany(zones: Snapshot, ps: seq<Position>, shown: set<Zone>)
    requires forall t :: 0 <= t < |ps| ==> Shower(zones, ps[t]) in shown
    requires forall t, u :: 0 <= t < u < |ps| ==> Shower(zones, ps[t]) != Shower(zones, ps[u])
    ensures |ps| <= |shown|
  {
    hide Shower;
    if ps != [] {
      AsMany(zones, ps[1..], shown - {Shower(zones, ps[0])});
    }
  }

  /**
   * In any run, when a cycle without a slip has copied all four zones, each train is shown by a
   * different zone: the snapshot has at least as many occupied zones as there are trains.
   */
  lemma EveryTrainIsCounted(s: World, before: seq<Step>, during: seq<Step>)
    requires ConsistentStart(s) && AllowedRun(s, before)
    requires var begin := After(s, before);
             && begin.pc == CopyLiftHill && AllowedRun(begin, during) && NoSlip(begin, during)
             && Copied(After(begin, during).pc, Station)
    ensures var end := After(After(s, before), during);
            && (forall t, u :: 0 <= t < u < |end.trains| ==>
                  Shower(Copies(end), end.trains[t]) != Shower(Copies(end), end.trains[u]))
            && |end.trains| <= |Occupied(Copies(end))|
  {
    StartIsGood(s);
    RunKeeps(s, before);
    var begin := After(s, before);
    RunKeeps(begin, during);
    hide Inv, ConsistentStart, AllowedRun, After, Copies, ShownBy, Tells, NoSlip, Copied;
    CycleBeginsTelling(begin, true);
    RunTells(begin, during, true);
    var end := After(begin, during);
    forall t: nat | t < |end.trains|
      ensures Shower(Copies(end), end.trains[t]) in Occupied(Copies(end))
    {
      NoTrainVanishes(s, before, during, t);
      ShownShower(Copies(end), end.trains[t]);
    }
    forall t: nat, u: nat | t < u < |end.trains|
      ensures Shower(Copies(end), end.trains[t]) != Shower(Copies(end), end.trains[u])
    {
      DistinctShowers(end, t, u);
    }
    hide Shower, Occupied;
    AsMany(Copies(end), end.trains, Occupied(Copies(end)));
  }

  lemma ShownShower(zones: Snapshot, p: Position)
    requires ShownBy(zones, p)
    ensures zones.Get(Shower(zones, p)) != Empty
  {
  }
}
