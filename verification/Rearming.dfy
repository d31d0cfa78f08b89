/** Between two trains a gravity brake closes again, and what opens it was decided for the train it frees. */
module Rearming {
  import opened Coaster
  import opened BrakeZones
  import opened Interlock
  import opened InterlockRuns
  import opened ClosedLoop
  import opened BlockSafety
  import opened Progress

  /** The servo of `z` obeys a command to its STOP position. */
  predicate Shuts(s: World, step: Step, z: Zone) {
    step == ObeyNext && s.pending != [] && Target(s.pending[0]) == Some((z, StopPosition(z)))
  }

  /** A command to the servo of `z` to go anywhere but to STOP. */
  predicate IsRelease(m: Message, z: Zone) {
    Addresses(m, z) && Target(m).value.1 != StopPosition(z)
  }

  /** The servo of `z` obeys such a command. */
  predicate Opens(s: World, step: Step, z: Zone) {
    step == ObeyNext && s.pending != [] && IsRelease(s.pending[0], z)
  }

  /** A train standing in `z` moves off. */
  predicate Departs(s: World, step: Step, z: Zone) {
    (step.RearFirst? || step.FrontFirst?) && step.train < |s.trains| && s.trains[step.train].zone == z
  }

  predicate ArrivesAt(s: World, step: Step, z: Zone) {
    step.Arrive? && step.train < |s.trains| && s.trains[step.train].zone == z
  }

  predicate Closed(s: World, z: Zone) {
    s.actuators.Get(z) == StopPosition(z)
  }

  predicate WillClose(s: World, z: Zone) {
    Settled(s).Get(z) == StopPosition(z)
  }

  // ----------------------------------------------------------------------------- single steps

  lemma OnlyObeyingMovesServos(s: World, step: Step, z: Zone)
    requires Enabled(s, step)
    ensures !Closed(s, z) && Closed(Next(s, step), z) ==> Shuts(s, step, z)
    ensures Closed(s, z) && !Closed(Next(s, step), z) ==> Opens(s, step, z)
  {
    hide Emit, Unseen, AfterQuiet, AfterRead, Polled, AfterCycle, SentIn, EndBlock, Free, StopPosition;
    if step == ObeyNext {
      var m := s.pending[0];
      if Target(m).Some? {
        PutGet(s.actuators, Target(m).value.0, Target(m).value.1);
      }
      hide Put, Target;
    } else {
      hide Put;
    }
  }

  lemma TakenAt(e: Execution, k: nat)
    requires IsExecution(e)
    ensures Allowed(e.state(k), e.step(k)) && e.state(k + 1) == Next(e.state(k), e.step(k))
  {
    assert StepAt(e, k);
    hide Next, Allowed, ConsistentStart;
  }

  // ----------------------------------------------------------------------- what is left on the line

  /** How many of the commands pending in state `i` are still pending in state `k`. */
  ghost function Left(e: Execution, i: nat, k: nat): nat
    decreases k
  {
    if k <= i then |e.state(i).pending| else Fewer(Left(e, i, k - 1), e.step(k - 1))
  }

  function Fewer(c: nat, step: Step): nat {
    if step == ObeyNext && c > 0 then c - 1 else c
  }

  /** A train counts as acted on, or as due to, no sooner than `c` commands have been obeyed. */
  predicate Behind(b: Block, c: nat) {
    (b.acted ==> c == 0) && (b.due > 0 ==> c <= b.due)
  }

  lemma BehindMove(s: World, step: Step, z: Zone, c: nat)
    requires Enabled(s, step) && MovesTrain(step) && Behind(s.blocks.Get(z), c)
    ensures Behind(Next(s, step).blocks.Get(z), c)
  {
    MoveIs(s, step);
    var p := s.trains[step.train];
    var b, d := s.blocks.Get(p.zone), s.blocks.Get(p.zone.Next());
    ShiftedBlocks(s, step.train, MoveTo(p, step), MoveHere(b, p.phase, step), MoveAhead(d, p.phase, step), z);
    hide Next, Shifted, Free;
  }

  lemma BehindStep(s: World, step: Step, z: Zone, c: nat)
    requires Enabled(s, step) && c <= |s.pending| && Behind(s.blocks.Get(z), c)
    ensures Fewer(c, step) <= |Next(s, step).pending| && Behind(Next(s, step).blocks.Get(z), Fewer(c, step))
  {
    if MovesTrain(step) {
      BehindMove(s, step, z, c);
      LineFrame(s, step);
      hide Next;
    } else if ByMonitor(step) {
      MonitorFrame(s, step, z);
      hide Next;
    } else if step == CopyZone {
      PutGet(s.blocks, CopyTarget(s.pc), Next(s, step).blocks.Get(CopyTarget(s.pc)));
    } else {
      hide AfterCycle, SentIn, Obey;
    }
  }

  lemma {:induction false} BehindSince(e: Execution, z: Zone, i: nat, k: nat)
    requires IsExecution(e) && i <= k && Behind(e.state(i).blocks.Get(z), |e.state(i).pending|)
    ensures Left(e, i, k) <= |e.state(k).pending| && Behind(e.state(k).blocks.Get(z), Left(e, i, k))
    decreases k
  {
    if i < k {
      BehindSince(e, z, i, k - 1);
      assert StepAt(e, k - 1);
      hide Next, Enabled, ConsistentStart, Behind, Left;
      BehindStep(e.state(k - 1), e.step(k - 1), z, Left(e, i, k - 1));
      LeftNow(e, i, k);
    }
  }

  lemma LeftNow(e: Execution, i: nat, k: nat)
    requires i < k
    ensures Left(e, i, k) == Fewer(Left(e, i, k - 1), e.step(k - 1))
  {
    hide Fewer;
  }

  lemma {:induction false} LeftFalls(e: Execution, i: nat, k: nat, j: nat)
    requires i <= k <= j
    ensures Left(e, i, j) <= Left(e, i, k)
    decreases j
  {
    if k < j {
      LeftFalls(e, i, k, j - 1);
    }
  }

  // -------------------------------------------------------------------------------- whole runs

  /** Somewhere from `i` on, but before `j`, the brake closes. */
  lemma {:induction false} ClosesBetween(e: Execution, z: Zone, i: nat, j: nat) returns (k: nat)
    requires IsExecution(e) && i < j && !Closed(e.state(i), z) && Closed(e.state(j), z)
    ensures i <= k < j && Shuts(e.state(k), e.step(k), z)
    decreases j
  {
    assert StepAt(e, j - 1);
    OnlyObeyingMovesServos(e.state(j - 1), e.step(j - 1), z);
    hide Next, Closed, Shuts, Opens, ConsistentStart;
    if Closed(e.state(j - 1), z) {
      k := ClosesBetween(e, z, i, j - 1);
    } else {
      k := j - 1;
    }
  }

  /** The brake is open after step `i` and up to `j`. */
  ghost predicate OpenFrom(e: Execution, z: Zone, i: nat, j: nat) {
    forall n: nat :: i < n <= j ==> !Closed(e.state(n), z)
  }

  lemma {:induction false} OpensBetween(e: Execution, z: Zone, i: nat, j: nat) returns (k: nat)
    requires IsExecution(e) && i < j && Closed(e.state(i), z) && !Closed(e.state(j), z)
    ensures i <= k < j && Opens(e.state(k), e.step(k), z) && OpenFrom(e, z, k, j)
    decreases j
  {
    assert StepAt(e, j - 1);
    OnlyObeyingMovesServos(e.state(j - 1), e.step(j - 1), z);
    hide Next, Closed, Shuts, Opens, ConsistentStart;
    if Closed(e.state(j - 1), z) {
      k := j - 1;
    } else {
      k := OpensBetween(e, z, i, j - 1);
    }
  }

  /** Where a brake will stand when the first `c` pending commands have been obeyed. */
  predicate ClosedAfter(s: World, z: Zone, c: nat) {
    c <= |s.pending| && ObeyAll(s.pending[..c], s.actuators).Get(z) == StopPosition(z)
  }

  lemma ClosedAfterStep(s: World, step: Step, z: Zone, c: nat)
    requires Allowed(s, step) && c > 0 && ClosedAfter(s, z, c)
    ensures ClosedAfter(Next(s, step), z, Fewer(c, step))
  {
    assert Enabled(s, step);
    if step == ObeyNext {
      assert s.pending[..c][1..] == s.pending[1..][..c - 1];
    } else if step.HearMode? {
      assert Next(s, step).pending[..c] == s.pending[..c];
      hide SentIn, AfterCycle;
    } else {
      LineFrame(s, step);
      hide Next;
    }
    hide Obey, AllObeyed;
  }

  /** A brake that is to close is closed at the moment all that was pending has been obeyed. */
  lemma {:induction false} ClosesByThen(e: Execution, z: Zone, i: nat, k: nat, j: nat) returns (h: nat)
    requires IsExecution(e) && i <= k <= j && ClosedAfter(e.state(k), z, Left(e, i, k)) && Left(e, i, j) == 0
    ensures k <= h <= j && Closed(e.state(h), z) && Left(e, i, h) == 0
    decreases j - k
  {
    hide *;
    if Left(e, i, k) == 0 {
      ClosedNow(e.state(k), z);
      h := k;
    } else {
      TakenAt(e, k);
      ClosedAfterStep(e.state(k), e.step(k), z, Left(e, i, k));
      LeftNow(e, i, k + 1);
      h := ClosesByThen(e, z, i, k + 1, j);
    }
  }

  lemma ClosedNow(s: World, z: Zone)
    requires ClosedAfter(s, z, 0)
    ensures Closed(s, z)
  {
    hide StopPosition;
    assert s.pending[..0] == [];
  }

  lemma MoveStands(s: World, step: Step, z: Zone)
    requires Inv(s) && Enabled(s, step) && MovesTrain(step) && !On(s, z, Standing) && On(Next(s, step), z, Standing)
    ensures ArrivesAt(s, step, z)
  {
    assert DistinctZones(s);
    hide Inv, Emit, Unseen, Put, Free;
    var t := step.train;
    match step
    case Arrive(_) => MovedOn(s, t, Position(s.trains[t].zone, Standing));
    case RearFirst(_) => MovedOn(s, t, Position(s.trains[t].zone, Between));
    case FrontFirst(_) => MovedOn(s, t, Position(s.trains[t].zone, Spanning));
    case Complete(_) => MovedOn(s, t, Position(s.trains[t].zone.Next(), Approaching));
  }

  lemma ArrivalShuts(s: World, step: Step, z: Zone)
    requires Inv(s) && Enabled(s, step) && ArrivesAt(s, step, z)
    ensures Braked(z) ==> WillClose(Next(s, step), z)
    ensures Undecided(Next(s, step).blocks.Get(z))
  {
    var t := step.train;
    var b, c := s.blocks.Get(z), s.blocks.Get(z.Next());
    Before(s, t);
    ShiftedBlocks(s, t, Position(z, Standing), Emit(Unseen(b), RiseSecond), c, z);
    assert BrakeReady(ViewOf(s, z.Prev()), ViewOf(s, z));
    assert ViewOf(s, z).willBeClosed == BrakeClosed(z, Settled(s));
    assert Settled(Next(s, step)) == Settled(s);
    RoundTheRing(z);
    hide Inv, Ring, ViewOf, Settled, Shifted;
  }

  lemma OnlyArrivingStands(s: World, step: Step, z: Zone)
    requires Inv(s) && Allowed(s, step) && !On(s, z, Standing) && On(Next(s, step), z, Standing)
    ensures ArrivesAt(s, step, z)
    ensures Braked(z) ==> WillClose(Next(s, step), z)
    ensures Undecided(Next(s, step).blocks.Get(z))
  {
    TrainCountStep(s, step);
    if MovesTrain(step) {
      MoveStands(s, step, z);
      BeforeAt(s, z);
      hide Inv;
      ArrivalShuts(s, step, z);
    }
  }

  lemma StandsNow(e: Execution, z: Zone, k: nat)
    requires IsExecution(e) && !On(e.state(k), z, Standing) && On(e.state(k + 1), z, Standing)
    ensures ArrivesAt(e.state(k), e.step(k), z)
    ensures Braked(z) ==> WillClose(e.state(k + 1), z)
    ensures Undecided(e.state(k + 1).blocks.Get(z))
  {
    InvAlways(e, k);
    assert StepAt(e, k);
    hide Next, ConsistentStart, On, Inv, ArrivesAt, WillClose, Enabled, Handover, FastController, CommandingMode,
         Braked;
    OnlyArrivingStands(e.state(k), e.step(k), z);
  }

  lemma {:induction false} StandsSince(e: Execution, z: Zone, i: nat, j: nat) returns (k: nat)
    requires IsExecution(e) && i < j && !On(e.state(i), z, Standing) && On(e.state(j), z, Standing)
    ensures i <= k < j && ArrivesAt(e.state(k), e.step(k), z)
    ensures Braked(z) ==> WillClose(e.state(k + 1), z)
    ensures Undecided(e.state(k + 1).blocks.Get(z))
    decreases j
  {
    hide *;
    if On(e.state(j - 1), z, Standing) {
      k := StandsSince(e, z, i, j - 1);
    } else {
      k := j - 1;
      StandsNow(e, z, k);
    }
  }

  // ------------------------------------------------------------------- who a release is meant for

  /** A release among `ms` is for a zone ENTERED with the zone ahead EMPTY, in a running mode. */
  ghost predicate GoesAreAuthorised(ms: seq<Message>, zones: Snapshot, mode: byte) {
    forall i, z: Zone :: 0 <= i < |ms| && Braked(z) && IsRelease(ms[i], z) ==> Authorised(zones, z) && Running(mode)
  }

  lemma SectionsAuthorised(zones: Snapshot, releaseGo: byte, mode: byte)
    ensures GoesAreAuthorised(LiftHillAutomatic(zones), zones, mode)
    ensures GoesAreAuthorised(LiftHillManual(zones, releaseGo), zones, mode)
    ensures GoesAreAuthorised(LiftHillSafe(zones), zones, mode) && GoesAreAuthorised([LiftHillStop], zones, mode)
    ensures GoesAreAuthorised(StationAutomatic(zones, releaseGo).sent, zones, mode)
    ensures GoesAreAuthorised(StationSafe(zones, releaseGo).sent, zones, mode)
    ensures GoesAreAuthorised([StopStation], zones, mode)
  {
  }

  lemma ManualAuthorised(zones: Snapshot, releaseGo: byte, reply: byte, mode: byte)
    ensures GoesAreAuthorised(StationManual(zones, releaseGo, reply).sent, zones, mode)
  {
  }

  lemma ServosAuthorised(zones: Snapshot, mode: byte)
    ensures Running(mode) ==> GoesAreAuthorised(PreStationRunning(zones), zones, mode)
    ensures Running(mode) ==> GoesAreAuthorised(RideRunning(zones), zones, mode)
    ensures GoesAreAuthorised(PreStationHalted(zones), zones, mode) && GoesAreAuthorised(RideHalted(zones), zones, mode)
  {
  }

  lemma AuthorisedTogether(hill: seq<Message>, station: seq<Message>, pre: seq<Message>, ride: seq<Message>,
                           zones: Snapshot, mode: byte)
    requires GoesAreAuthorised(hill, zones, mode) && GoesAreAuthorised(station, zones, mode)
    requires GoesAreAuthorised(pre, zones, mode) && GoesAreAuthorised(ride, zones, mode)
    ensures GoesAreAuthorised([RequestButtonState] + (hill + station + pre + ride), zones, mode)
  {
    hide Addresses, Authorised, Running, StopPosition, Braked;
    assert forall z: Zone :: !Addresses(RequestButtonState, z) by {
      RequestAddressesNobody();
    }
  }

  lemma RequestAddressesNobody()
    ensures forall z: Zone :: !Addresses(RequestButtonState, z)
  {
  }

  lemma DecidedAuthorised(m: Memory, c: Cycle)
    requires Running(ModeIn(m, c)) || Halted(ModeIn(m, c))
    ensures GoesAreAuthorised(SentIn(m, c), c.zones, ModeIn(m, c))
  {
    var mode, z, go, reply := ModeIn(m, c), c.zones, m.releaseGo, StartFromReply(1, c.startReply);
    SectionsAuthorised(z, go, mode);
    ManualAuthorised(z, go, reply, mode);
    ServosAuthorised(z, mode);
    hide ModeIn, StartFromReply, LiftHillAutomatic, LiftHillManual, LiftHillSafe, StationAutomatic, StationManual,
         StationSafe,
         PreStationRunning, PreStationHalted, RideRunning, RideHalted, GoesAreAuthorised;
    if mode == AUTOMATIC {
      AuthorisedTogether(LiftHillAutomatic(z), StationAutomatic(z, go).sent, PreStationRunning(z), RideRunning(z),
          z, mode);
    } else if mode == MANUAL {
      AuthorisedTogether(LiftHillManual(z, go), StationManual(z, go, reply).sent, PreStationRunning(z), RideRunning(z),
                         z, mode);
    } else if mode == STOP {
      AuthorisedTogether([LiftHillStop], [StopStation], PreStationHalted(z), RideHalted(z), z, mode);
    } else {
      AuthorisedTogether(LiftHillSafe(z), StationSafe(z, go).sent, PreStationHalted(z), RideHalted(z), z, mode);
    }
  }

  /** Cycle `h` decides on a view of `z` ENTERED with the zone ahead EMPTY, in a running mode. */
  predicate LetsGo(e: Execution, h: nat, z: Zone) {
    && e.step(h).HearMode? && Running(ModeHeard(e.state(h), e.step(h))) && Authorised(Copies(e.state(h)), z)
  }

  /** Command `x` of those pending in state `k` is one that cycle `h` sent. */
  ghost predicate SentBy(e: Execution, h: nat, k: nat, x: nat) {
    h < k && e.step(h).HearMode? && Left(e, h, k) <= x < Left(e, h + 1, k)
  }

  lemma HearAppends(s: World, step: Step) returns (ms: seq<Message>)
    requires Allowed(s, step) && step.HearMode?
    ensures Next(s, step).pending == s.pending + ms && GoesAreAuthorised(ms, Copies(s), ModeHeard(s, step))
  {
    var c := CycleOf(s, step.modeReply, step.startReply);
    ms := SentIn(s.memory, c);
    assert c.zones == Copies(s) && ModeIn(s.memory, c) == ModeHeard(s, step);
    hide SentIn, AfterCycle, ModeIn, Running, Halted, GoesAreAuthorised, Copies, ModeHeard;
    DecidedAuthorised(s.memory, c);
  }

  lemma SentNow(e: Execution, h: nat, x: nat)
    requires e.step(h).HearMode? && |e.state(h).pending| <= x < |e.state(h + 1).pending|
    ensures SentBy(e, h, h + 1, x)
  {
    LeftNow(e, h, h + 1);
  }

  lemma ReleaseLetsGo(e: Execution, h: nat, ms: seq<Message>, x: nat, z: Zone)
    requires e.step(h).HearMode? && x < |ms| && Braked(z) && IsRelease(ms[x], z)
    requires GoesAreAuthorised(ms, Copies(e.state(h)), ModeHeard(e.state(h), e.step(h)))
    ensures LetsGo(e, h, z)
  {
    hide IsRelease, Authorised, Running, ModeHeard, Copies, Braked;
  }

  lemma JustSent(e: Execution, h: nat, x: nat, z: Zone)
    requires IsExecution(e) && e.step(h).HearMode? && |e.state(h).pending| <= x < |e.state(h + 1).pending|
    ensures SentBy(e, h, h + 1, x) && (Braked(z) && IsRelease(e.state(h + 1).pending[x], z) ==> LetsGo(e, h, z))
  {
    hide *;
    TakenAt(e, h);
    var ms := HearAppends(e.state(h), e.step(h));
    SentNow(e, h, x);
    var y := x - |e.state(h).pending|;
    assert e.state(h + 1).pending[x] == ms[y];
    if Braked(z) && IsRelease(ms[y], z) {
      ReleaseLetsGo(e, h, ms, y, z);
    }
  }

  /** One step earlier a pending command was one place further back, or in the same place. */
  lemma PendingBefore(s: World, step: Step, x: nat)
    requires Allowed(s, step) && x < |Next(s, step).pending| && (step.HearMode? ==> x < |s.pending|)
    ensures var y := if step == ObeyNext then x + 1 else x;
            y < |s.pending| && Next(s, step).pending[x] == s.pending[y]
  {
    assert Enabled(s, step);
    if !step.HearMode? && step != ObeyNext {
      LineFrame(s, step);
      hide Next;
    }
    hide Obey, AllObeyed, SentIn, AfterCycle;
  }

  /** Whatever is pending and was not at `i` has been sent by some cycle since. */
  lemma {:induction false} WhoSent(e: Execution, z: Zone, i: nat, k: nat, x: nat) returns (h: nat)
    requires IsExecution(e) && i <= k && Left(e, i, k) <= x < |e.state(k).pending|
    ensures i <= h < k && SentBy(e, h, k, x)
    ensures Braked(z) && IsRelease(e.state(k).pending[x], z) ==> LetsGo(e, h, z)
    decreases k
  {
    hide *;
    NoneAtFirst(e, i);
    var s, step := e.state(k - 1), e.step(k - 1);
    LeftNow(e, i, k);
    if step.HearMode? && x >= |s.pending| {
      h := k - 1;
      JustSent(e, h, x, z);
    } else {
      TakenAt(e, k - 1);
      PendingBefore(s, step, x);
      var y := if step == ObeyNext then x + 1 else x;
      FewerBefore(Left(e, i, k - 1), step, x);
      h := WhoSent(e, z, i, k - 1, y);
      SentStill(e, h, k, x);
    }
  }

  lemma NoneAtFirst(e: Execution, i: nat)
    ensures Left(e, i, i) == |e.state(i).pending|
  {
  }

  lemma FewerBefore(c: nat, step: Step, x: nat)
    requires Fewer(c, step) <= x
    ensures c <= if step == ObeyNext then x + 1 else x
  {
  }

  lemma SentStill(e: Execution, h: nat, k: nat, x: nat)
    requires k > 0 && SentBy(e, h, k - 1, if e.step(k - 1) == ObeyNext then x + 1 else x)
    ensures SentBy(e, h, k, x)
  {
    LeftNow(e, h, k);
    LeftNow(e, h + 1, k);
    hide Left;
  }

  // ------------------------------------------------------------------------------ the theorem

  /**
   * Between departures `i` and `j` from a braked zone the servo is driven to STOP in step `stop`; in
   * `arrival` the train that departs in `j` comes to stand there; only then, in `decided`, does a
   * cycle in a running mode that saw the zone ENTERED and the one ahead EMPTY send the very command
   * that drives the servo on in `go`, and it stays there until the train departs.
   */
  ghost predicate Rearmed(e: Execution, z: Zone, i: nat, j: nat, stop: nat, arrival: nat, decided: nat, go: nat) {
    && i < stop < go < j && i < arrival < decided < go
    && Shuts(e.state(stop), e.step(stop), z)
    && ArrivesAt(e.state(arrival), e.step(arrival), z)
    && LetsGo(e, decided, z)
    && Opens(e.state(go), e.step(go), z) && SentBy(e, decided, go, 0) && OpenFrom(e, z, go, j)
  }

  lemma DepartureFacts(e: Execution, z: Zone, i: nat)
    requires IsExecution(e) && Braked(z) && Departs(e.state(i), e.step(i), z)
    ensures !Closed(e.state(i), z) && On(e.state(i), z, Standing) && e.state(i).blocks.Get(z).acted
    ensures !On(e.state(i + 1), z, Standing) && !Closed(e.state(i + 1), z)
  {
    assert StepAt(e, i);
    InvAlways(e, i);
    var s, step, t := e.state(i), e.step(i), e.step(i).train;
    Departing(s, step, t);
    assert s.trains[t] in s.trains;
    assert DistinctZones(s);
    hide Inv, Emit, Unseen, Put, FastController, Handover, CommandingMode;
    MovedOn(s, t, Position(z, if step.RearFirst? then Between else Spanning));
  }

  /** What was pending when a train came to stand has been obeyed by the time it departs. */
  lemma ObeyedByThen(e: Execution, z: Zone, i: nat, j: nat)
    requires IsExecution(e) && i <= j && Undecided(e.state(i).blocks.Get(z)) && e.state(j).blocks.Get(z).acted
    ensures Left(e, i, j) == 0
  {
    BehindSince(e, z, i, j);
    hide IsExecution, Left;
  }

  lemma WillCloseThen(e: Execution, z: Zone, i: nat)
    requires WillClose(e.state(i), z)
    ensures ClosedAfter(e.state(i), z, Left(e, i, i))
  {
    assert e.state(i).pending[..|e.state(i).pending|] == e.state(i).pending;
    hide StopPosition;
  }

  /** What opens a brake when all that was pending at `i` has been obeyed was sent since. */
  lemma SentSince(e: Execution, z: Zone, i: nat, go: nat) returns (h: nat)
    requires IsExecution(e) && Braked(z) && i <= go && Left(e, i, go) == 0 && Opens(e.state(go), e.step(go), z)
    ensures i <= h < go && SentBy(e, h, go, 0) && LetsGo(e, h, z)
  {
    hide IsExecution, Left, IsRelease, LetsGo, Braked;
    h := WhoSent(e, z, i, go, 0);
  }

  /** A later train comes to stand, and the brake is closed when all that was then pending has been obeyed. */
  lemma ClosesForTheNext(e: Execution, z: Zone, i: nat, j: nat) returns (arrival: nat, shut: nat)
    requires IsExecution(e) && Braked(z) && i < j && !On(e.state(i), z, Standing)
    requires On(e.state(j), z, Standing) && e.state(j).blocks.Get(z).acted
    ensures i <= arrival < shut <= j && ArrivesAt(e.state(arrival), e.step(arrival), z)
    ensures Closed(e.state(shut), z) && Left(e, arrival + 1, shut) == 0
  {
    hide *;
    arrival := StandsSince(e, z, i, j);
    ObeyedByThen(e, z, arrival + 1, j);
    WillCloseThen(e, z, arrival + 1);
    shut := ClosesByThen(e, z, arrival + 1, arrival + 1, j);
  }

  /**
   * Brake re-arm. In every run, between any two departures from the ride (or from the pre-station)
   * its brake is driven closed, and the command that opens it again for the second train was sent
   * after that train had come to stand there: a release latched through STOP or RETURN_TO_SAFE, or
   * still on the line, only ever frees the train it was issued for.
   */
  lemma BrakeRearms(e: Execution, z: Zone, i: nat, j: nat)
    requires IsExecution(e) && Braked(z) && i < j
    requires Departs(e.state(i), e.step(i), z) && Departs(e.state(j), e.step(j), z)
    ensures exists stop, arrival, decided, go :: Rearmed(e, z, i, j, stop, arrival, decided, go)
  {
    DepartureFacts(e, z, i);
    DepartureFacts(e, z, j);
    hide *;
    var arrival, shut := ClosesForTheNext(e, z, i + 1, j);
    var stop := ClosesBetween(e, z, i + 1, shut);
    var go := OpensBetween(e, z, shut, j);
    LeftFalls(e, arrival + 1, shut, go);
    var decided := SentSince(e, z, arrival + 1, go);
    RearmedBy(e, z, i, j, stop, arrival, decided, go);
  }

  lemma RearmedBy(e: Execution, z: Zone, i: nat, j: nat, stop: nat, arrival: nat, decided: nat, go: nat)
    requires i < stop < go < j && i < arrival < decided < go
    requires Shuts(e.state(stop), e.step(stop), z) && ArrivesAt(e.state(arrival), e.step(arrival), z)
    requires LetsGo(e, decided, z) && Opens(e.state(go), e.step(go), z) && SentBy(e, decided, go, 0)
    requires OpenFrom(e, z, go, j)
    ensures Rearmed(e, z, i, j, stop, arrival, decided, go)
  {
  }
}
