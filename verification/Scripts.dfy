/** Concrete runs of the closed loop, step by step, and whole control cycles in them. */
module Scripts {
  import opened Coaster
  import opened BrakeZones
  import opened Interlock
  import opened InterlockRuns
  import opened ClosedLoop

  ghost predicate Leads(s: World, steps: seq<Step>, s': World) {
    AllowedRun(s, steps) && After(s, steps) == s'
  }

  lemma NoSteps(s: World)
    ensures Leads(s, [], s)
  {
  }

  lemma OneStep(s: World, step: Step)
    requires Allowed(s, step)
    ensures Leads(s, [step], Next(s, step))
  {
    hide Next, Enabled, Handover, FastController, CommandingMode;
    var steps := [step];
    assert steps[0] == step && steps[1..] == [];
    assert AllowedRun(Next(s, steps[0]), steps[1..]);
    assert After(s, steps) == After(Next(s, steps[0]), steps[1..]);
  }

  lemma {:induction false} Onward(s: World, steps: seq<Step>, s': World, step: Step)
    requires Leads(s, steps, s') && Allowed(s', step)
    ensures Leads(s, steps + [step], Next(s', step))
    decreases steps
  {
    hide Next, Enabled, Handover, FastController, CommandingMode;
    if steps == [] {
      OneStep(s, step);
      assert steps + [step] == [step];
    } else {
      assert (steps + [step])[1..] == steps[1..] + [step];
      Onward(Next(s, steps[0]), steps[1..], s', step);
    }
  }

  lemma {:induction false} AndThen(s: World, steps: seq<Step>, s': World, more: seq<Step>, s'': World)
    requires Leads(s, steps, s') && Leads(s', more, s'')
    ensures Leads(s, steps + more, s'')
    decreases steps
  {
    hide Next, Enabled, Handover, FastController, CommandingMode;
    if steps == [] {
      assert steps + more == more;
    } else {
      assert (steps + more)[1..] == steps[1..] + more;
      AndThen(Next(s, steps[0]), steps[1..], s', more, s'');
    }
  }

  /** Every train reaches the next zone before it leaves the one behind. */
  predicate NoGap(steps: seq<Step>) {
    forall step :: step in steps ==> !step.RearFirst?
  }

  // ------------------------------------------------------------------- a whole cycle in AUTOMATIC

  function CopiedBlock(s: World, z: Zone): Block {
    var b := s.blocks.Get(z);
    b.(copy := b.monitor.internal, seen := On(s, z, Standing) && b.monitor.internal == Entered)
  }

  /** All four zones copied with nothing else happening meanwhile. */
  function AllCopied(s: World): World {
    s.(pc := AskMode, blocks := PerZone(CopiedBlock(s, Station), CopiedBlock(s, LiftHill), CopiedBlock(s, Ride),
                                        CopiedBlock(s, PreStation)))
  }

  lemma CopiesAll(s: World)
    requires s.pc == CopyLiftHill
    ensures Leads(s, [CopyZone, CopyZone, CopyZone, CopyZone], AllCopied(s))
  {
    var a := Next(s, CopyZone);
    var b := Next(a, CopyZone);
    var c := Next(b, CopyZone);
    CopySequence(s);
    hide *;
    NoSteps(s);
    Onward(s, [], s, CopyZone);
    Onward(s, [] + [CopyZone], a, CopyZone);
    Onward(s, [] + [CopyZone] + [CopyZone], b, CopyZone);
    Onward(s, [] + [CopyZone] + [CopyZone] + [CopyZone], c, CopyZone);
    assert [] + [CopyZone] + [CopyZone] + [CopyZone] + [CopyZone] == [CopyZone, CopyZone, CopyZone, CopyZone];
  }

  lemma CopySequence(s: World)
    requires s.pc == CopyLiftHill
    ensures Allowed(s, CopyZone)
    ensures var a := Next(s, CopyZone);
            && Allowed(a, CopyZone)
            && var b := Next(a, CopyZone);
               && Allowed(b, CopyZone)
               && var c := Next(b, CopyZone);
                  Allowed(c, CopyZone) && Next(c, CopyZone) == AllCopied(s)
  {
    hide On;
    var a := Next(s, CopyZone);
    var b := Next(a, CopyZone);
    var c := Next(b, CopyZone);
    SameOn(s, a);
    SameOn(s, b);
    SameOn(s, c);
  }

  lemma SameOn(s: World, s': World)
    requires s'.trains == s.trains
    ensures forall z: Zone, phase :: On(s', z, phase) == On(s, z, phase)
  {
  }

  /** A block after `n` commands have been obeyed. */
  function LaterBlock(b: Block, n: nat): Block {
    b.(acted := b.acted || 0 < b.due <= n, due := if b.due > n then b.due - n else 0)
  }

  function AllLater(blocks: PerZone<Block>, n: nat): PerZone<Block> {
    PerZone(LaterBlock(blocks.station, n), LaterBlock(blocks.liftHill, n), LaterBlock(blocks.ride, n),
            LaterBlock(blocks.preStation, n))
  }

  /** All that is pending is obeyed. */
  function Obeyed(s: World): World {
    s.(pending := [], actuators := ObeyAll(s.pending, s.actuators), blocks := AllLater(s.blocks, |s.pending|))
  }

  lemma {:induction false} ObeysAll(s: World) returns (steps: seq<Step>)
    ensures Leads(s, steps, Obeyed(s)) && NoGap(steps)
    decreases |s.pending|
  {
    if s.pending == [] {
      steps := [];
      assert Obeyed(s) == s;
      NoSteps(s);
    } else {
      var s' := Next(s, ObeyNext);
      OneObeyed(s);
      assert Allowed(s, ObeyNext);
      hide Next, Allowed, Obeyed, Leads;
      var more := ObeysAll(s');
      OneStep(s, ObeyNext);
      AndThen(s, [ObeyNext], s', more, Obeyed(s'));
      steps := [ObeyNext] + more;
    }
  }

  lemma OneObeyed(s: World)
    requires s.pending != []
    ensures Obeyed(Next(s, ObeyNext)) == Obeyed(s)
  {
    hide Obey;
  }

  /** Nothing is pending and nothing is due. */
  predicate AllDone(s: World) {
    && s.pending == []
    && s.blocks.station.due == 0 && s.blocks.liftHill.due == 0 && s.blocks.ride.due == 0 && s.blocks.preStation.due == 0
  }

  /** A block after a cycle that copied, decided and ended, and was obeyed. */
  function CycledBlock(s: World, z: Zone): Block {
    var b := CopiedBlock(s, z);
    b.(seen := false, acted := b.acted || b.seen)
  }

  lemma CycledIsLater(s: World, z: Zone, n: nat)
    requires s.blocks.Get(z).due == 0 && n > 0
    ensures LaterBlock(EndBlock(DecidedBlock(CopiedBlock(s, z), n)), n) == CycledBlock(s, z)
  {
    hide On;
  }

  /** The state after a whole undisturbed cycle that hears AUTOMATIC, and is obeyed once it has ended. */
  function AfterAutomatic(s: World): World {
    var a := AllCopied(s);
    var c := CycleOf(a, [SEND_BUTTON_STATE, AUTOMATIC], []);
    a.(pc := CopyLiftHill, memory := AfterCycle(s.memory, c), pending := [],
       actuators := ObeyAll(SentIn(s.memory, c), s.actuators),
       blocks := PerZone(CycledBlock(s, Station), CycledBlock(s, LiftHill), CycledBlock(s, Ride),
                         CycledBlock(s, PreStation)))
  }

  const IN_AUTOMATIC: Step := HearMode([SEND_BUTTON_STATE, AUTOMATIC], [])

  /** The state once the cycle has decided, written everything and ended. */
  function Ended(a: World, c: Cycle): World {
    var pending := a.pending + SentIn(a.memory, c);
    a.(pc := CopyLiftHill, memory := AfterCycle(a.memory, c), pending := pending,
       blocks := AllEnded(AllDecided(a.blocks, |pending|)))
  }

  lemma ThenEnded(a: World)
    requires a.pc == AskMode
    ensures Allowed(a, IN_AUTOMATIC)
    ensures var b := Next(a, IN_AUTOMATIC);
            Allowed(b, EndCycle) && Next(b, EndCycle) == Ended(a, CycleOf(a, [SEND_BUTTON_STATE, AUTOMATIC], []))
  {
    MayHear(a);
    hide SentIn, AfterCycle, Heard, ModeIn, AllDecided, AllEnded;
  }

  lemma ThenObeyed(s: World)
    requires s.pc == CopyLiftHill && AllDone(s)
    ensures var a := AllCopied(s);
            && Allowed(a, IN_AUTOMATIC)
            && var b := Next(a, IN_AUTOMATIC);
               Allowed(b, EndCycle) && Obeyed(Next(b, EndCycle)) == AfterAutomatic(s)
  {
    var a := AllCopied(s);
    var c := CycleOf(a, [SEND_BUTTON_STATE, AUTOMATIC], []);
    ThenEnded(a);
    var n := |SentIn(s.memory, c)|;
    assert n > 0;
    hide SentIn, AfterCycle, CopiedBlock, ObeyAll, DecidedBlock, EndBlock, LaterBlock, CycledBlock, Next, Allowed;
    assert [] + SentIn(s.memory, c) == SentIn(s.memory, c);
    CycledIsLater(s, Station, n);
    CycledIsLater(s, LiftHill, n);
    CycledIsLater(s, Ride, n);
    CycledIsLater(s, PreStation, n);
  }

  lemma WholeCycle(s: World) returns (steps: seq<Step>)
    requires s.pc == CopyLiftHill && AllDone(s)
    ensures Leads(s, steps, AfterAutomatic(s)) && NoGap(steps)
  {
    var a := AllCopied(s);
    var first := [CopyZone, CopyZone, CopyZone, CopyZone];
    CopiesAll(s);
    ThenObeyed(s);
    var b := Next(a, IN_AUTOMATIC);
    var c := Next(b, EndCycle);
    var obeys := ObeysAll(c);
    steps := first + [IN_AUTOMATIC] + [EndCycle] + obeys;
    hide Next, Allowed, Leads, AllCopied, AfterAutomatic, Obeyed;
    Onward(s, first, a, IN_AUTOMATIC);
    Onward(s, first + [IN_AUTOMATIC], b, EndCycle);
    AndThen(s, first + [IN_AUTOMATIC] + [EndCycle], c, obeys, Obeyed(c));
  }

  lemma MayHear(s: World)
    requires s.pc == AskMode
    ensures Allowed(s, IN_AUTOMATIC)
    ensures Heard(s.memory.state, [SEND_BUTTON_STATE, AUTOMATIC]) == AUTOMATIC
  {
    assert ModeFromReply([SEND_BUTTON_STATE, AUTOMATIC]) == AUTOMATIC;
    hide Decide;
  }

  function SentFor(z: Snapshot, go: byte): seq<Message> {
    [RequestButtonState]
    + (LiftHillAutomatic(z) + StationAutomatic(z, go).sent + PreStationRunning(z) + RideRunning(z))
  }

  /** What an AUTOMATIC cycle does to these actuators when the zones read so. */
  lemma Automatically(s: World)
    ensures var z, d := Copies(AllCopied(s)), StationAutomatic(Copies(AllCopied(s)), s.memory.releaseGo);
            && AfterAutomatic(s).actuators == ObeyAll(SentFor(z, s.memory.releaseGo), s.actuators)
            && AfterAutomatic(s).memory == Memory(AUTOMATIC, d.releaseGo)
  {
    MayHear(AllCopied(s));
    hide LiftHillAutomatic, StationAutomatic, PreStationRunning, RideRunning, ObeyAll, CopiedBlock, Heard;
  }

  lemma FourCommands(a: Actuators, hill: Message, station: Message, preStation: Message, ride: Message)
    requires Target(hill).Some? && Target(hill).value.0 == LiftHill
    requires Target(station).Some? && Target(station).value.0 == Station
    requires Target(preStation).Some? && Target(preStation).value.0 == PreStation
    requires Target(ride).Some? && Target(ride).value.0 == Ride
    ensures ObeyAll([RequestButtonState] + ([hill] + [station] + [preStation] + [ride]), a)
            == PerZone(Target(station).value.1, Target(hill).value.1, Target(ride).value.1, Target(preStation).value.1)
  {
    var ms := [hill, station, preStation, ride];
    assert [RequestButtonState] + ([hill] + [station] + [preStation] + [ride]) == [RequestButtonState] + ms;
    assert ([RequestButtonState] + ms)[1..] == ms;
    assert Obey(RequestButtonState, a) == a;
    FourObeyed(ms, a);
    hide Target, ObeyAll;
  }

  lemma FourObeyed(ms: seq<Message>, a: Actuators)
    requires |ms| == 4
    ensures ObeyAll(ms, a) == Obey(ms[3], Obey(ms[2], Obey(ms[1], Obey(ms[0], a))))
  {
    hide Obey;
    var b := Obey(ms[1], Obey(ms[0], a));
    assert ms[1..][1..] == ms[2..] && ms[2..][1..] == ms[3..] && ms[3..][1..] == [];
    assert ObeyAll(ms[2..], b) == ObeyAll(ms[3..], Obey(ms[2], b));
    assert ObeyAll(ms[3..], Obey(ms[2], b)) == ObeyAll([], Obey(ms[3], Obey(ms[2], b)));
  }
}
