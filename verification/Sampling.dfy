/**
 * The control thread copies the zones one after the other while trains move. No train slips through:
 * the only one a snapshot can miss has reached the lift hill while the station was timed out between
 * the two copies.
 */
module Sampling {
  import opened Coaster
  import opened BrakeZones
  import opened Interlock
  import opened InterlockRuns
  import opened ClosedLoop
  import opened BlockSafety

  /** A copy taken of a zone with a train that has been acted on, or is leaving, or has left unread, says ENTERED. */
  predicate Told(here: View, ahead: View) {
    here.copied && (here.Leaving() || here.acted || (ahead.happened >= 1 && ahead.read == 0)) ==> here.copy == Entered
  }

  /** If a copy misses the train of a zone, the zone behind shows it, in its copy or, not copied yet, still. */
  predicate Followed(behind: View, here: View) {
    here.copied && here.Home() && here.copy == Empty ==>
      if behind.copied then behind.copy == Entered else behind.read >= 2
  }

  /** All round the ring; the flags say for which zones `Followed` is meant. */
  predicate Telling(here: View, ahead: View, far: View, behind: View, h: bool, a: bool, f: bool, b: bool) {
    && Told(here, ahead) && Told(ahead, far) && Told(far, behind) && Told(behind, here)
    && (h ==> Followed(behind, here)) && (a ==> Followed(here, ahead))
    && (f ==> Followed(ahead, far)) && (b ==> Followed(far, behind))
  }

  // --------------------------------------------------- each kind of step, on the views alone

  lemma ArriveTells(here: View, ahead: View, far: View, behind: View, h: bool, a: bool, f: bool, b: bool)
    requires Ring(here, ahead, far, behind) && Telling(here, ahead, far, behind, h, a, f, b)
             && here.approaching
    ensures Telling(here.(approaching := false, standing := true,
                          happened := 2, seen := false, due := false, acted := false, mayGo := false),
                    ahead, far, behind, h, a, f, b)
  {
  }

  lemma RearFirstTells(here: View, ahead: View, far: View, behind: View, h: bool, a: bool, f: bool,
      b: bool)
    requires Ring(here, ahead, far, behind) && Telling(here, ahead, far, behind, h, a, f, b)
    requires here.standing && here.acted
    ensures Telling(here.(standing := false, between := true,
                          happened := 3, seen := false, due := false, acted := false, mayGo := false),
                    ahead, far, behind, h, a, f, b)
  {
  }

  lemma FrontFirstTells(here: View, ahead: View, far: View, behind: View, h: bool, a: bool, f: bool,
      b: bool)
    requires Ring(here, ahead, far, behind) && Telling(here, ahead, far, behind, h, a, f, b)
    requires here.standing && here.acted
    ensures Telling(here.(standing := false, spanning := true,
                          seen := false, due := false, acted := false, mayGo := false),
                    ahead.(happened := 1), far, behind, h, a, f, b)
  {
  }

  lemma FrontCompletesTells(here: View, ahead: View, far: View, behind: View, h: bool, a: bool,
      f: bool, b: bool)
    requires Ring(here, ahead, far, behind) && Telling(here, ahead, far, behind, h, a, f, b) && here.between
    ensures Telling(here.(between := false), ahead.(approaching := true, happened := 1), far, behind, h, a, f, b)
  {
  }

  lemma RearCompletesTells(here: View, ahead: View, far: View, behind: View, h: bool, a: bool,
      f: bool, b: bool)
    requires Ring(here, ahead, far, behind) && Telling(here, ahead, far, behind, h, a, f, b) && here.spanning
    ensures Telling(here.(spanning := false, happened := 3), ahead.(approaching := true), far, behind, h, a, f, b)
  {
  }

  /** Timing a zone out hides the train ahead only if that zone is already copied and this one is not. */
  lemma VacateTells(here: View, ahead: View, far: View, behind: View, h: bool, a: bool, f: bool, b: bool)
    requires Ring(here, ahead, far, behind) && Telling(here, ahead, far, behind, h, a, f, b)
    requires here.happened == 3 && here.read == 3 && !here.between && !(ahead.happened >= 1 && ahead.read == 0)
    requires a && ahead.copied ==> here.copied
    ensures Telling(here.(happened := 0, read := 0), ahead, far, behind, h, a, f, b)
  {
  }

  lemma ReadTells(here: View, ahead: View, far: View, behind: View, h: bool, a: bool, f: bool, b: bool)
    requires Ring(here, ahead, far, behind) && Telling(here, ahead, far, behind, h, a, f, b)
    requires here.read < here.happened <= 3
    ensures Telling(here.(read := here.read + 1), ahead, far, behind, h, a, f, b)
  {
  }

  lemma CopyTells(here: View, ahead: View, far: View, behind: View, h: bool, a: bool, f: bool, b: bool)
    requires Ring(here, ahead, far, behind) && Telling(here, ahead, far, behind, h, a, f, b)
    requires !here.copied && !here.seen && here.read <= here.happened <= 3
    ensures Telling(CopiedView(here), ahead, far, behind, h, a, f, b)
  {
  }

  // ------------------------------------------------------- each kind of step, on the whole state

  /** `Followed` is meant for `z`: for the lift hill only if `hill` says so. */
  predicate Meant(z: Zone, hill: bool) {
    z == LiftHill ==> hill
  }

  predicate TellsFrom(s: World, z: Zone, hill: bool) {
    Telling(ViewOf(s, z), ViewOf(s, z.Next()), ViewOf(s, z.Next().Next()), ViewOf(s, z.Prev()),
            Meant(z, hill), Meant(z.Next(), hill), Meant(z.Next().Next(), hill), Meant(z.Prev(), hill))
  }

  predicate Tells(s: World, hill: bool) {
    TellsFrom(s, Station, hill)
  }

  lemma TellsFromAnywhere(s: World, hill: bool, z: Zone, y: Zone)
    requires TellsFrom(s, z, hill)
    ensures TellsFrom(s, y, hill)
  {
    hide Told, Followed, ViewOf, Meant;
  }

  lemma ReassembleTells(s: World, s': World, here: Zone, hill: bool)
    requires ChangedOnly(s, s', here, here.Next())
    requires Telling(ViewOf(s', here), ViewOf(s', here.Next()), ViewOf(s, here.Next().Next()), ViewOf(s, here.Prev()),
                     Meant(here, hill), Meant(here.Next(), hill), Meant(here.Next().Next(), hill),
                         Meant(here.Prev(), hill))
    ensures Tells(s', hill)
  {
    hide Telling, ViewOf, Meant;
    RoundTheRing(here);
    SameView(s, s', here, here.Next(), here.Next().Next());
    SameView(s, s', here, here.Next(), here.Prev());
    TellsFromAnywhere(s', hill, here, Station);
  }

  lemma ShiftTells(s: World, t: nat, to: Position, here: Block, ahead: Block, hill: bool)
    requires Inv(s) && t < |s.trains|
    requires to.zone == s.trains[t].zone || (to.zone == s.trains[t].zone.Next() && !ViewOf(s, to.zone).Home())
    requires KeptOrDropped(s.blocks.Get(s.trains[t].zone), here)
    requires KeptOrDropped(s.blocks.Get(s.trains[t].zone.Next()), ahead)
    requires var z := s.trains[t].zone;
             Telling(ShiftedView(ViewOf(s, z), z, to, here, true),
                     ShiftedView(ViewOf(s, z.Next()), z.Next(), to, ahead, false),
                     ViewOf(s, z.Next().Next()), ViewOf(s, z.Prev()),
                     Meant(z, hill), Meant(z.Next(), hill), Meant(z.Next().Next(), hill), Meant(z.Prev(), hill))
    ensures Tells(Shifted(s, t, to, here, ahead), hill)
  {
    assert ViewOf(s, to.zone).Home() == Home(s, to.zone);
    ShiftedViews(s, t, to, here, ahead);
    hide ViewOf, ShiftedView, Shifted, Home, Telling, DistinctZones, ChangedOnly, Meant, Inv, Tells;
    ReassembleTells(s, Shifted(s, t, to, here, ahead), s.trains[t].zone, hill);
  }

  lemma ArriveMoveTells(s: World, t: nat, hill: bool)
    requires Inv(s) && t < |s.trains| && s.trains[t].phase == Approaching && Tells(s, hill)
    ensures var z := s.trains[t].zone;
            var b, c := s.blocks.Get(z), s.blocks.Get(z.Next());
            Tells(Shifted(s, t, Position(z, Standing), Emit(Unseen(b), RiseSecond), c), hill)
  {
    var z := s.trains[t].zone;
    Before(s, t);
    TellsFromAnywhere(s, hill, Station, z);
    var v, w, x, y := ViewOf(s, z), ViewOf(s, z.Next()), ViewOf(s, z.Next().Next()), ViewOf(s, z.Prev());
    var b, c := s.blocks.Get(z), s.blocks.Get(z.Next());
    var h, a, f, d := Meant(z, hill), Meant(z.Next(), hill), Meant(z.Next().Next(), hill), Meant(z.Prev(), hill);
    assert Telling(v, w, x, y, h, a, f, d);
    hide *;
    ArriveRules(v, w, x, y);
    ArriveTells(v, w, x, y, h, a, f, d);
    ArriveViews(v, b, w, c, z);
    ShiftTells(s, t, Position(z, Standing), Emit(Unseen(b), RiseSecond), c, hill);
  }

  lemma RearFirstMoveTells(s: World, t: nat, hill: bool)
    requires Inv(s) && t < |s.trains| && s.trains[t].phase == Standing && Tells(s, hill)
    requires Free(s.trains[t].zone, s.actuators) && s.blocks.Get(s.trains[t].zone).acted
    ensures var z := s.trains[t].zone;
            var b, c := s.blocks.Get(z), s.blocks.Get(z.Next());
            Tells(Shifted(s, t, Position(z, Between), Emit(Unseen(b), FallSecond), c), hill)
  {
    var z := s.trains[t].zone;
    Before(s, t);
    FreeMayGo(s, z);
    TellsFromAnywhere(s, hill, Station, z);
    var v, w, x, y := ViewOf(s, z), ViewOf(s, z.Next()), ViewOf(s, z.Next().Next()), ViewOf(s, z.Prev());
    var b, c := s.blocks.Get(z), s.blocks.Get(z.Next());
    var h, a, f, d := Meant(z, hill), Meant(z.Next(), hill), Meant(z.Next().Next(), hill), Meant(z.Prev(), hill);
    assert Telling(v, w, x, y, h, a, f, d);
    hide *;
    RearFirstRules(v, w, x, y);
    RearFirstTells(v, w, x, y, h, a, f, d);
    RearFirstViews(v, b, w, c, z);
    ShiftTells(s, t, Position(z, Between), Emit(Unseen(b), FallSecond), c, hill);
  }

  lemma FrontFirstMoveTells(s: World, t: nat, hill: bool)
    requires Inv(s) && t < |s.trains| && s.trains[t].phase == Standing && Tells(s, hill)
    requires Free(s.trains[t].zone, s.actuators) && s.blocks.Get(s.trains[t].zone).acted
    ensures var z := s.trains[t].zone;
            var b, c := s.blocks.Get(z), s.blocks.Get(z.Next());
            Tells(Shifted(s, t, Position(z, Spanning), Unseen(b), Emit(c, RiseFirst)), hill)
  {
    var z := s.trains[t].zone;
    Before(s, t);
    FreeMayGo(s, z);
    TellsFromAnywhere(s, hill, Station, z);
    var v, w, x, y := ViewOf(s, z), ViewOf(s, z.Next()), ViewOf(s, z.Next().Next()), ViewOf(s, z.Prev());
    var b, c := s.blocks.Get(z), s.blocks.Get(z.Next());
    var h, a, f, d := Meant(z, hill), Meant(z.Next(), hill), Meant(z.Next().Next(), hill), Meant(z.Prev(), hill);
    assert Telling(v, w, x, y, h, a, f, d);
    hide *;
    FrontFirstRules(v, w, x, y);
    FrontFirstTells(v, w, x, y, h, a, f, d);
    FrontFirstViews(v, b, w, c, z);
    ShiftTells(s, t, Position(z, Spanning), Unseen(b), Emit(c, RiseFirst), hill);
  }

  lemma FrontMoveTells(s: World, t: nat, hill: bool)
    requires Inv(s) && t < |s.trains| && s.trains[t].phase == Between && Tells(s, hill)
    ensures var z := s.trains[t].zone;
            var b, c := s.blocks.Get(z), s.blocks.Get(z.Next());
            Tells(Shifted(s, t, Position(z.Next(), Approaching), b, Emit(c, RiseFirst)), hill)
  {
    var z := s.trains[t].zone;
    Before(s, t);
    TellsFromAnywhere(s, hill, Station, z);
    var v, w, x, y := ViewOf(s, z), ViewOf(s, z.Next()), ViewOf(s, z.Next().Next()), ViewOf(s, z.Prev());
    var b, c := s.blocks.Get(z), s.blocks.Get(z.Next());
    var h, a, f, d := Meant(z, hill), Meant(z.Next(), hill), Meant(z.Next().Next(), hill), Meant(z.Prev(), hill);
    assert Telling(v, w, x, y, h, a, f, d);
    hide *;
    FrontCompletesRules(v, w, x, y);
    FrontCompletesTells(v, w, x, y, h, a, f, d);
    FrontCompletesViews(v, b, w, c, z);
    ShiftTells(s, t, Position(z.Next(), Approaching), b, Emit(c, RiseFirst), hill);
  }

  lemma RearMoveTells(s: World, t: nat, hill: bool)
    requires Inv(s) && t < |s.trains| && s.trains[t].phase == Spanning && Tells(s, hill)
    ensures var z := s.trains[t].zone;
            var b, c := s.blocks.Get(z), s.blocks.Get(z.Next());
            Tells(Shifted(s, t, Position(z.Next(), Approaching), Emit(b, FallSecond), c), hill)
  {
    var z := s.trains[t].zone;
    Before(s, t);
    TellsFromAnywhere(s, hill, Station, z);
    var v, w, x, y := ViewOf(s, z), ViewOf(s, z.Next()), ViewOf(s, z.Next().Next()), ViewOf(s, z.Prev());
    var b, c := s.blocks.Get(z), s.blocks.Get(z.Next());
    var h, a, f, d := Meant(z, hill), Meant(z.Next(), hill), Meant(z.Next().Next(), hill), Meant(z.Prev(), hill);
    assert Telling(v, w, x, y, h, a, f, d);
    hide *;
    RearCompletesRules(v, w, x, y);
    RearCompletesTells(v, w, x, y, h, a, f, d);
    RearCompletesViews(v, b, w, c, z);
    ShiftTells(s, t, Position(z.Next(), Approaching), Emit(b, FallSecond), c, hill);
  }

  lemma MoveTells(s: World, step: Step, hill: bool)
    requires Inv(s) && Allowed(s, step) && Tells(s, hill)
    requires step.Arrive? || step.RearFirst? || step.FrontFirst? || step.Complete?
    ensures Tells(Next(s, step), hill)
  {
    var t := step.train;
    if step.RearFirst? || step.FrontFirst? {
      Departing(s, step, t);
    }
    hide Shifted, Inv, Emit, Unseen, Free, Handover, FastController, CommandingMode, Tells;
    match step
    case Arrive(_) => ArriveMoveTells(s, t, hill);
    case RearFirst(_) => RearFirstMoveTells(s, t, hill);
    case FrontFirst(_) => FrontFirstMoveTells(s, t, hill);
    case Complete(_) =>
      if s.trains[t].phase == Between {
        FrontMoveTells(s, t, hill);
      } else {
        RearMoveTells(s, t, hill);
      }
  }

  /** The station is timed out after the lift hill was copied and before the station is. */
  predicate Slips(s: World, step: Step) {
    step == QuietPoll(Station) && WouldVacate(s.blocks.station.monitor) && Copied(s.pc, LiftHill)
        && !Copied(s.pc, Station)
  }

  lemma MonitorTells(s: World, z: Zone, b: Block, hill: bool)
    requires Inv(s)
    requires SameNotes(b, s.blocks.Get(z))
    requires Telling(ViewOf(s, z).(happened := b.happened, read := b.read), ViewOf(s, z.Next()),
                     ViewOf(s, z.Next().Next()), ViewOf(s, z.Prev()),
                     Meant(z, hill), Meant(z.Next(), hill), Meant(z.Next().Next(), hill), Meant(z.Prev(), hill))
    ensures Tells(Replaced(s, z, b), hill)
  {
    hide *;
    ReplacedView(s, z, b);
    ReassembleTells(s, Replaced(s, z, b), z, hill);
  }

  lemma SameCountsTell(s: World, z: Zone, b: Block, hill: bool)
    requires Inv(s) && Tells(s, hill)
    requires b == s.blocks.Get(z).(monitor := b.monitor, queue := b.queue)
    ensures Tells(Replaced(s, z, b), hill)
  {
    BeforeAt(s, z);
    TellsFromAnywhere(s, hill, Station, z);
    var v := ViewOf(s, z);
    assert v.(happened := b.happened, read := b.read) == v;
    assert TellsFrom(s, z, hill);
    hide ViewOf, Ring, Inv, Recorded, Telling, Meant, Tells, Replaced;
    MonitorTells(s, z, b, hill);
  }

  lemma AfterReadCounts(b: Block)
    requires b.queue != []
    ensures var b' := AfterRead(b);
            b' == b.(monitor := b'.monitor, queue := b'.queue,
                     read := if b.queue[0] == FallFirst then b.read else b.read + 1)
  {
    hide PollStep;
  }

  lemma OneMoreReadTells(s: World, z: Zone, b: Block, hill: bool)
    requires Inv(s) && Tells(s, hill)
    requires s.blocks.Get(z).read < s.blocks.Get(z).happened <= 3
    requires b == s.blocks.Get(z).(monitor := b.monitor, queue := b.queue, read := s.blocks.Get(z).read + 1)
    ensures Tells(Replaced(s, z, b), hill)
  {
    BeforeAt(s, z);
    TellsFromAnywhere(s, hill, Station, z);
    var v, w, x, y := ViewOf(s, z), ViewOf(s, z.Next()), ViewOf(s, z.Next().Next()), ViewOf(s, z.Prev());
    var h, a, f, d := Meant(z, hill), Meant(z.Next(), hill), Meant(z.Next().Next(), hill), Meant(z.Prev(), hill);
    assert Telling(v, w, x, y, h, a, f, d);
    assert v.read < v.happened <= 3;
    hide *;
    ReadTells(v, w, x, y, h, a, f, d);
    assert v.(happened := b.happened, read := b.read) == v.(read := v.read + 1);
    MonitorTells(s, z, b, hill);
  }

  lemma ReadStepTells(s: World, z: Zone, hill: bool)
    requires Inv(s) && s.blocks.Get(z).queue != [] && Tells(s, hill)
    ensures Tells(Replaced(s, z, AfterRead(s.blocks.Get(z))), hill)
  {
    var b := s.blocks.Get(z);
    assert Recorded(b) && b.happened <= 3;
    hide *;
    ReadRecorded(b);
    AfterReadCounts(b);
    if b.queue[0] == FallFirst {
      SameCountsTell(s, z, AfterRead(b), hill);
    } else {
      OneMoreReadTells(s, z, AfterRead(b), hill);
    }
  }

  lemma CopyOrder(s: World, z: Zone, hill: bool)
    requires Meant(z.Next(), hill) && Copied(s.pc, z.Next())
    requires hill && z == Station ==> !(Copied(s.pc, LiftHill) && !Copied(s.pc, Station))
    ensures Copied(s.pc, z)
  {
  }

  lemma VacatingTells(s: World, z: Zone, b: Block, hill: bool)
    requires Inv(s) && Tells(s, hill) && !On(s, z, Between)
    requires s.blocks.Get(z).happened == 3 && s.blocks.Get(z).read == 3
    requires s.blocks.Get(z.Next()).happened >= 1 ==> s.blocks.Get(z.Next()).read != 0
    requires Meant(z.Next(), hill) && Copied(s.pc, z.Next()) ==> Copied(s.pc, z)
    requires b == s.blocks.Get(z).(monitor := b.monitor, happened := 0, read := 0)
    ensures Tells(Replaced(s, z, b), hill)
  {
    BeforeAt(s, z);
    TellsFromAnywhere(s, hill, Station, z);
    var v, w, x, y := ViewOf(s, z), ViewOf(s, z.Next()), ViewOf(s, z.Next().Next()), ViewOf(s, z.Prev());
    var h, a, f, d := Meant(z, hill), Meant(z.Next(), hill), Meant(z.Next().Next(), hill), Meant(z.Prev(), hill);
    assert Telling(v, w, x, y, h, a, f, d);
    assert v.copied == Copied(s.pc, z) && w.copied == Copied(s.pc, z.Next());
    assert v.happened == 3 && v.read == 3 && !v.between && !(w.happened >= 1 && w.read == 0);
    hide *;
    VacateTells(v, w, x, y, h, a, f, d);
    assert v.(happened := b.happened, read := b.read) == v.(happened := 0, read := 0);
    MonitorTells(s, z, b, hill);
  }

  lemma AfterQuietCounts(b: Block)
    ensures var b' := AfterQuiet(b);
            b' == if WouldVacate(b.monitor) then b.(monitor := b'.monitor, happened := 0, read := 0)
                  else b.(monitor := b'.monitor)
  {
    hide PollStep;
  }

  lemma QuietStepTells(s: World, z: Zone, hill: bool)
    requires Inv(s) && Handover(s, QuietPoll(z)) && Tells(s, hill)
    requires hill ==> !Slips(s, QuietPoll(z))
    ensures Tells(Replaced(s, z, AfterQuiet(s.blocks.Get(z))), hill)
  {
    var b, c := s.blocks.Get(z), s.blocks.Get(z.Next());
    assert Recorded(b) && Recorded(c);
    QuietRecorded(b);
    AfterQuietCounts(b);
    hide Inv, Recorded, Tells, Replaced, AfterQuiet;
    if WouldVacate(b.monitor) {
      if c.happened >= 1 && c.read == 0 {
        UnreadArrival(c);
      }
      if Meant(z.Next(), hill) && Copied(s.pc, z.Next()) {
        CopyOrder(s, z, hill);
      }
      hide On, Copied, Meant;
      VacatingTells(s, z, AfterQuiet(b), hill);
    } else {
      SameCountsTell(s, z, AfterQuiet(b), hill);
    }
  }

  lemma CopyStepTells(s: World, hill: bool)
    requires Inv(s) && s.pc != AskMode && s.pc != Sending && Tells(s, hill)
    ensures Tells(AfterCopying(s), hill)
  {
    var s' := AfterCopying(s);
    var z := CopyTarget(s.pc);
    RoundTheRing(z);
    CopyViewThere(s);
    CopyViewElsewhere(s, z.Next());
    CopyViewElsewhere(s, z.Next().Next());
    CopyViewElsewhere(s, z.Prev());
    BeforeAt(s, z);
    TellsFromAnywhere(s, hill, Station, z);
    var v := ViewOf(s, z);
    assert v.read <= v.happened <= 3 && (v.seen ==> v.copied) && !v.copied;
    assert TellsFrom(s, z, hill);
    hide Inv, Recorded, ViewOf, AfterCopying, CopyTarget, Ring, Telling, Meant, Tells;
    CopyTells(v, ViewOf(s, z.Next()), ViewOf(s, z.Next().Next()), ViewOf(s, z.Prev()),
              Meant(z, hill), Meant(z.Next(), hill), Meant(z.Next().Next(), hill), Meant(z.Prev(), hill));
    TellsFromAnywhere(s', hill, z, Station);
  }

  /** The same but for what is commanded and obeyed. */
  predicate SameSeen(v: View, w: View) {
    && w == v.(due := w.due, acted := w.acted, mayGo := w.mayGo,
               willBeFree := w.willBeFree, willBeClosed := w.willBeClosed)
    && (w.acted ==> v.acted || (v.copied ==> v.copy == Entered))
  }

  lemma SameSeenTells(s: World, s': World, hill: bool)
    requires Tells(s, hill) && forall z: Zone :: SameSeen(ViewOf(s, z), ViewOf(s', z))
    ensures Tells(s', hill)
  {
    hide ViewOf, Meant;
    assert SameSeen(ViewOf(s, Station), ViewOf(s', Station)) && SameSeen(ViewOf(s, LiftHill), ViewOf(s', LiftHill));
    assert SameSeen(ViewOf(s, Ride), ViewOf(s', Ride)) && SameSeen(ViewOf(s, PreStation), ViewOf(s', PreStation));
  }

  lemma EndTells(s: World, hill: bool)
    requires Inv(s) && s.pc == Sending
    ensures Tells(AfterEnding(s), hill)
  {
    hide ViewOf, Inv, Meant, AfterEnding;
    EndViews(s);
    assert forall z: Zone :: !ViewOf(AfterEnding(s), z).copied;
  }

  lemma HearTells(s: World, c: Cycle, hill: bool)
    requires Inv(s) && s.pc == AskMode && c.zones == Copies(s) && Tells(s, hill)
    requires Running(ModeIn(s.memory, c)) || Halted(ModeIn(s.memory, c))
    ensures Tells(AfterHearing(s, c), hill)
  {
    forall z: Zone
      ensures SameSeen(ViewOf(s, z), ViewOf(AfterHearing(s, c), z))
    {
      hide Inv, ViewOf, Tells, AfterHearing, ModeIn, Running, Halted, Copies;
      HearViews(s, c, z);
    }
    hide *;
    SameSeenTells(s, AfterHearing(s, c), hill);
  }

  lemma SeenSame(here: View, ahead: View, far: View, behind: View, after: View)
    requires Ring(here, ahead, far, behind) && ObeyedOn(here, after)
    ensures SameSeen(here, after)
  {
  }

  lemma ObeySame(s: World, z: Zone)
    requires Inv(s) && s.pending != []
    ensures SameSeen(ViewOf(s, z), ViewOf(AfterObeying(s), z))
  {
    var v, w, x, y := ViewOf(s, z), ViewOf(s, z.Next()), ViewOf(s, z.Next().Next()), ViewOf(s, z.Prev());
    hide Inv, ViewOf, AfterObeying, Ring, ObeyedOn;
    ObeyViews(s, z);
    RingAt(s, z);
    SeenSame(v, w, x, y, ViewOf(AfterObeying(s), z));
  }

  lemma ObeyTells(s: World, hill: bool)
    requires Inv(s) && s.pending != [] && Tells(s, hill)
    ensures Tells(AfterObeying(s), hill)
  {
    hide *;
    forall z: Zone
      ensures SameSeen(ViewOf(s, z), ViewOf(AfterObeying(s), z))
    {
      ObeySame(s, z);
    }
    SameSeenTells(s, AfterObeying(s), hill);
  }

  /** Every step but a slip keeps what the copies tell; a slip loses nothing but the lift hill. */
  lemma StepTells(s: World, step: Step, hill: bool)
    requires Inv(s) && Allowed(s, step) && Tells(s, hill)
    requires hill ==> !Slips(s, step)
    ensures Tells(Next(s, step), hill)
  {
    hide Inv, Tells, Shifted, Replaced, Free, AfterQuiet, AfterRead, Emit, Unseen, EndBlock, SentIn, AfterCycle, ModeIn,
         Running, Halted, Copies, Slips;
    match step
    case StrayEdge(z) => SameCountsTell(s, z, s.blocks.Get(z).(queue := s.blocks.Get(z).queue + [FallFirst]), hill);
    case QuietPoll(z) => QuietStepTells(s, z, hill);
    case FailedRead(z) => SameCountsTell(s, z, Polled(s.blocks.Get(z), Batch([])), hill);
    case ReadEvent(z) => ReadStepTells(s, z, hill);
    case CopyZone => CopyStepTells(s, hill);
    case HearMode(modeReply, startReply) => HearTells(s, CycleOf(s, modeReply, startReply), hill);
    case EndCycle => EndTells(s, hill);
    case ObeyNext => ObeyTells(s, hill);
    case _ => MoveTells(s, step, hill);
  }

  // -------------------------------------------------------------------------------- whole runs

  predicate NoSlip(s: World, steps: seq<Step>)
    requires AllowedRun(s, steps)
    decreases steps
  {
    steps == [] || (!Slips(s, steps[0]) && NoSlip(Next(s, steps[0]), steps[1..]))
  }

  lemma {:induction false} RunTells(s: World, steps: seq<Step>, hill: bool)
    requires Inv(s) && AllowedRun(s, steps) && Tells(s, hill)
    requires hill ==> NoSlip(s, steps)
    ensures Tells(After(s, steps), hill)
    decreases steps
  {
    hide Inv, Next, Enabled, Handover, FastController, CommandingMode, Slips, Tells;
    if steps != [] {
      StepKeeps(s, steps[0]);
      StepTells(s, steps[0], hill);
      RunTells(Next(s, steps[0]), steps[1..], hill);
    }
  }

  lemma CycleBeginsTelling(s: World, hill: bool)
    requires s.pc == CopyLiftHill
    ensures Tells(s, hill)
  {
    assert forall z: Zone :: !ViewOf(s, z).copied;
    hide ViewOf, Meant;
  }

  /** Some zone the train could be taken to be in is not shown EMPTY: its own or the one it came from. */
  predicate ShownBy(zones: Snapshot, p: Position) {
    zones.Get(p.zone) != Empty || zones.Get(p.zone.Prev()) != Empty
  }

  lemma CopyView(s: World, z: Zone)
    requires Copied(s.pc, Station)
    ensures ViewOf(s, z).copied && Copies(s).Get(z) == ViewOf(s, z).copy
  {
    hide Settled, Free, BrakeClosed, On;
  }

  lemma HomeView(s: World, t: nat)
    requires Inv(s) && t < |s.trains|
    ensures ViewOf(s, s.trains[t].zone).Home()
  {
    TrainView(s, t);
    hide Inv, ViewOf;
  }

  lemma FollowedHere(s: World, z: Zone, hill: bool)
    requires TellsFrom(s, z, hill) && Meant(z, hill)
    ensures Followed(ViewOf(s, z.Prev()), ViewOf(s, z))
  {
    hide Told, Followed, ViewOf, Meant;
  }

  lemma TellsOfTrain(s: World, t: nat, hill: bool)
    requires Inv(s) && Tells(s, hill) && Copied(s.pc, Station) && t < |s.trains|
    requires Meant(s.trains[t].zone, hill)
    ensures ShownBy(Copies(s), s.trains[t])
  {
    var z := s.trains[t].zone;
    TellsFromAnywhere(s, hill, Station, z);
    FollowedHere(s, z, hill);
    HomeView(s, t);
    CopyView(s, z);
    CopyView(s, z.Prev());
    hide Inv, ViewOf, Copies, Tells, Meant, Told, Copied;
  }

  /**
   * No train vanishes. Take any run, any cycle in it, and the moment that cycle has copied all four
   * zones. Every train outside the lift hill is shown by its own zone or the one behind; so is a
   * train on the lift hill, unless the station was timed out after the hill was copied.
   */
  lemma NoTrainVanishes(s: World, before: seq<Step>, during: seq<Step>, t: nat)
    requires ConsistentStart(s) && AllowedRun(s, before)
    requires var begin := After(s, before);
             && begin.pc == CopyLiftHill && AllowedRun(begin, during)
             && Copied(After(begin, during).pc, Station) && t < |After(begin, during).trains|
    ensures var begin := After(s, before);
            var end := After(begin, during);
            end.trains[t].zone != LiftHill || NoSlip(begin, during) ==> ShownBy(Copies(end), end.trains[t])
  {
    StartIsGood(s);
    RunKeeps(s, before);
    var begin := After(s, before);
    RunKeeps(begin, during);
    hide Inv, ConsistentStart, AllowedRun, After, Copies, ShownBy, Tells, NoSlip;
    var hill := NoSlip(begin, during);
    CycleBeginsTelling(begin, hill);
    RunTells(begin, during, hill);
    if hill || After(begin, during).trains[t].zone != LiftHill {
      TellsOfTrain(After(begin, during), t, hill);
    }
  }

  // ---------------------------------------------------------------- when nothing can slip through

  function QuietPolls(steps: seq<Step>, z: Zone): nat {
    if steps == [] then 0 else (if steps[0] == QuietPoll(z) then 1 else 0) + QuietPolls(steps[1..], z)
  }

  /** How long the station has been quiet since its last edge, if it is ENTERED and that edge was an exit. */
  predicate QuietAtMost(m: Monitor, n: int) {
    m.internal == Entered && m.fallLast ==> m.timeouts <= n
  }

  lemma QuietAtMostStep(s: World, step: Step, n: nat)
    requires Enabled(s, step) && QuietAtMost(s.blocks.station.monitor, n)
    ensures QuietAtMost(Next(s, step).blocks.station.monitor, if step == QuietPoll(Station) then n + 1 else n)
  {
    hide Obey, SentIn, AfterCycle, Free;
    match step
    case ReadEvent(z) =>
      OneEvent(s.blocks.Get(z).monitor, s.blocks.Get(z).queue[0]);
      hide PollStep;
    case _ =>
  }

  /** A snapshot cannot miss a train if the station's last edge was no exit and few of its polls fit in. */
  lemma {:induction false} ShortSnapshot(s: World, steps: seq<Step>, n: nat)
    requires AllowedRun(s, steps) && QuietAtMost(s.blocks.station.monitor, n)
    requires n + QuietPolls(steps, Station) < QUIET_POLLS_TO_VACATE
    ensures NoSlip(s, steps)
    decreases steps
  {
    if steps != [] {
      assert Allowed(s, steps[0]);
      hide Next, Enabled, Handover, FastController, CommandingMode;
      QuietAtMostStep(s, steps[0], n);
      ShortSnapshot(Next(s, steps[0]), steps[1..], if steps[0] == QuietPoll(Station) then n + 1 else n);
    }
  }
}
