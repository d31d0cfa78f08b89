/**
 * No gridlock: in every fair infinite run with one to three trains that from some moment on stays in
 * AUTOMATIC and MANUAL, trains keep crossing from zone to zone for ever.
 */
module Progress {
  import opened Coaster
  import opened BrakeZones
  import opened Interlock
  import opened InterlockRuns
  import opened ClosedLoop
  import opened BlockSafety

  datatype Execution = Execution(state: nat -> World, step: nat -> Step)

  ghost predicate StepAt(e: Execution, i: nat) {
    Allowed(e.state(i), e.step(i)) && e.state(i + 1) == Next(e.state(i), e.step(i))
  }

  /** An infinite run of allowed steps from a consistent start. */
  ghost predicate IsExecution(e: Execution) {
    ConsistentStart(e.state(0)) && forall i: nat :: StepAt(e, i)
  }

  // ------------------------------------------------------------------------ what fairness means

  /** The motor of a zone that needs one to move a train is on. */
  predicate Driven(z: Zone, a: Actuators) {
    (z == Station ==> a.station > 0) && (z == LiftHill ==> a.liftHill > 0)
  }

  /** The mode a cycle acts on. */
  function ModeHeard(s: World, step: Step): byte
    requires step.HearMode?
  {
    ModeIn(s.memory, CycleOf(s, step.modeReply, step.startReply))
  }

  /** From `n` on the Pi acts on AUTOMATIC or MANUAL, in whatever alternation; before, on any mode it obeys. */
  ghost predicate RunningFrom(e: Execution, n: nat) {
    forall i: nat :: n <= i && e.step(i).HearMode? ==> Running(ModeHeard(e.state(i), e.step(i)))
  }

  /** The cycle, in MANUAL, asks for a start. */
  predicate AsksForStart(s: World, step: Step) {
    step.HearMode? && ModeHeard(s, step) == MANUAL && Authorised(Copies(s), Station) && s.memory.releaseGo == 0
  }

  predicate GetsStart(s: World, step: Step) {
    AsksForStart(s, step) && StartFromReply(1, step.startReply) != 0
  }

  ghost predicate AsksAfter(e: Execution, i: nat) {
    exists j: nat :: i <= j && AsksForStart(e.state(j), e.step(j))
  }

  ghost predicate PressedAfter(e: Execution, i: nat) {
    exists j: nat :: i <= j && GetsStart(e.state(j), e.step(j))
  }

  /** If the Pi asks for a start again and again for ever, it gets one again and again. Any request may be in vain. */
  ghost predicate ButtonPressed(e: Execution) {
    (forall i: nat :: AsksAfter(e, i)) ==> forall i: nat :: PressedAfter(e, i)
  }

  predicate PollsZone(step: Step, z: Zone) {
    step == QuietPoll(z) || step == ReadEvent(z)
  }

  /**
   * No failed reads; `select` times out only when there is nothing to read; no first sensor falls
   * behind a train that has left its zone while the zone is still shown occupied.
   */
  predicate Sound(s: World, step: Step) {
    && !step.FailedRead?
    && (step.QuietPoll? ==> s.blocks.Get(step.zone).queue == [])
    && (step.StrayEdge? ==> s.blocks.Get(step.zone).happened != 3)
  }

  ghost predicate SoundFrom(e: Execution, n: nat) {
    forall i: nat :: n <= i ==> Sound(e.state(i), e.step(i))
  }

  ghost predicate TurnsAfter(e: Execution, i: nat) {
    exists j: nat :: i <= j && e.step(j) == EndCycle
  }

  ghost predicate ControlTurns(e: Execution) {
    forall i: nat :: TurnsAfter(e, i)
  }

  ghost predicate ObeysAfter(e: Execution, i: nat) {
    exists j: nat :: i <= j && (e.step(j) == ObeyNext || e.state(j).pending == [])
  }

  /** The firmware keeps obeying what it has been sent, however far behind it falls. */
  ghost predicate LineMoves(e: Execution) {
    forall i: nat :: ObeysAfter(e, i)
  }

  /** The only poll left to a monitor is the one that `Handover` says does not come yet. */
  predicate Barred(s: World, z: Zone) {
    s.blocks.Get(z).queue == [] && !Handover(s, QuietPoll(z))
  }

  ghost predicate PolledAfter(e: Execution, i: nat, z: Zone) {
    exists j: nat :: i <= j && (PollsZone(e.step(j), z) || Barred(e.state(j), z))
  }

  ghost predicate MonitorsPoll(e: Execution) {
    forall i: nat, z: Zone :: PolledAfter(e, i, z)
  }

  /** Train `t` could be doing something about where it is, and is not held. */
  predicate Urged(s: World, t: nat)
    requires t < |s.trains|
  {
    var p := s.trains[t];
    match p.phase
    case Approaching => Driven(p.zone, s.actuators)
    case Standing => s.blocks.Get(p.zone).acted && Free(p.zone, s.actuators)
    case Between => Driven(p.zone.Next(), s.actuators)
    case Spanning => Driven(p.zone.Next(), s.actuators)
  }

  predicate MovesTrain(step: Step) {
    step.Arrive? || step.RearFirst? || step.FrontFirst? || step.Complete?
  }

  /** Train `t` moves, or stops being urged on, at or after `i`. */
  ghost predicate RelievedAfter(e: Execution, i: nat, t: nat) {
    exists j: nat :: i <= j && t < |e.state(j).trains| &&
      (!Urged(e.state(j), t) || (MovesTrain(e.step(j)) && e.step(j).train == t))
  }

  /** A train that is urged on without a break eventually moves. */
  ghost predicate TrainsMove(e: Execution) {
    forall i: nat, t: nat :: t < |e.state(0).trains| ==> RelievedAfter(e, i, t)
  }

  /** Nothing here depends on how the run began: each part speaks of what happens again and again. */
  ghost predicate Fair(e: Execution) {
    ControlTurns(e) && LineMoves(e) && MonitorsPoll(e) && TrainsMove(e) && ButtonPressed(e)
  }

  // ------------------------------------------------------------------------ invariants of a run

  lemma {:induction false} InvAlways(e: Execution, k: nat)
    requires IsExecution(e)
    ensures Inv(e.state(k))
  {
    hide Inv, ConsistentStart, Next, Enabled, Handover, FastController, CommandingMode;
    if k == 0 {
      StartIsGood(e.state(0));
    } else {
      InvAlways(e, k - 1);
      assert StepAt(e, k - 1);
      StepKeeps(e.state(k - 1), e.step(k - 1));
    }
  }

  lemma TrainCountStep(s: World, step: Step)
    requires Enabled(s, step)
    ensures |Next(s, step).trains| == |s.trains|
    ensures !MovesTrain(step) ==> Next(s, step).trains == s.trains
  {
    hide Emit, Unseen, AfterQuiet, AfterRead, Polled, AfterCycle, SentIn, Obey, EndBlock, Put;
  }

  lemma {:induction false} TrainCount(e: Execution, k: nat)
    requires IsExecution(e)
    ensures |e.state(k).trains| == |e.state(0).trains|
  {
    if k > 0 {
      TrainCount(e, k - 1);
      assert StepAt(e, k - 1);
      hide Next, Enabled;
      TrainCountStep(e.state(k - 1), e.step(k - 1));
    }
  }

  /** The exit of a departed train is the last edge in the queue, or of the zone: nothing has fallen behind it since. */
  predicate Orderly(b: Block) {
    b.happened == 3 ==>
      if b.read == 3 then b.queue == [] && b.monitor.fallLast
      else b.queue != [] && b.queue[|b.queue| - 1] == FallSecond
  }

  /** No zone is stranded in ENTERED, or about to be. */
  ghost predicate NoneStranded(s: World) {
    forall z: Zone :: Orderly(s.blocks.Get(z))
  }

  /** From `n` on the sensors work and the modes are AUTOMATIC and MANUAL, and at `n` no zone is stranded. */
  ghost predicate WorksFrom(e: Execution, n: nat) {
    SoundFrom(e, n) && RunningFrom(e, n) && NoneStranded(e.state(n))
  }

  lemma OrderlyEmit(b: Block, e: LineEvent)
    requires Recorded(b) && b.happened < 3 && e == PASSAGE[b.happened]
    ensures Orderly(Emit(b, e))
  {
  }

  lemma OrderlyQuiet(b: Block)
    requires Recorded(b) && Orderly(b) && b.queue == []
    ensures Orderly(AfterQuiet(b))
  {
  }

  lemma {:induction false} TwoEssentials(q: seq<LineEvent>)
    requires |q| >= 2 && q[0] != FallFirst && q[|q| - 1] != FallFirst
    ensures |Essential(q)| >= 2
  {
    LastIsEssential(q[1..]);
  }

  lemma {:induction false} LastIsEssential(q: seq<LineEvent>)
    requires q != [] && q[|q| - 1] != FallFirst
    ensures Essential(q) != []
  {
    if q[0] == FallFirst {
      LastIsEssential(q[1..]);
    }
  }

  lemma OrderlyRead(b: Block)
    requires Recorded(b) && Orderly(b) && b.queue != []
    ensures Orderly(AfterRead(b))
  {
    var e := b.queue[0];
    OneEvent(b.monitor, e);
    ReadRecorded(b);
    if b.happened == 3 {
      if |b.queue| >= 2 {
        assert b.queue[1..][|b.queue| - 2] == FallSecond;
        if e != FallFirst {
          TwoEssentials(b.queue);
          assert |PASSAGE[b.read..3]| == 3 - b.read;
        }
      } else {
        assert e == FallSecond;
        assert b.queue[1..] == [];
        assert Essential(b.queue) == [FallSecond] + Essential([]);
        assert |PASSAGE[b.read..3]| == 3 - b.read;
      }
    }
  }

  /** The blocks a step can make, one zone at a time. */
  predicate BlockStep(s: World, step: Step, z: Zone, b: Block, b': Block) {
    || (step == StrayEdge(z) && b' == b.(queue := b.queue + [FallFirst]))
    || (step == QuietPoll(z) && b' == AfterQuiet(b))
    || (step == FailedRead(z) && b' == Polled(b, Batch([])))
    || (step == ReadEvent(z) && b.queue != [] && b' == AfterRead(b))
    || (!PollsZone(step, z) && b' == b.(copy := b'.copy, seen := b'.seen, due := b'.due, acted := b'.acted)
        && (b.acted ==> b'.acted))
  }

  predicate ByMonitor(step: Step) {
    step.StrayEdge? || step.QuietPoll? || step.FailedRead? || step.ReadEvent?
  }

  lemma MonitorBlock(s: World, step: Step, z: Zone)
    requires Enabled(s, step) && ByMonitor(step)
    ensures BlockStep(s, step, z, s.blocks.Get(z), Next(s, step).blocks.Get(z))
  {
    hide AfterQuiet, AfterRead, Polled, AfterCycle, SentIn, Obey, Free;
    match step
    case StrayEdge(y) => PutGet(s.blocks, y, Next(s, step).blocks.Get(y));
    case QuietPoll(y) => PutGet(s.blocks, y, Next(s, step).blocks.Get(y));
    case FailedRead(y) => PutGet(s.blocks, y, Next(s, step).blocks.Get(y));
    case ReadEvent(y) => PutGet(s.blocks, y, Next(s, step).blocks.Get(y));
    case _ =>
  }

  lemma ControlBlock(s: World, step: Step, z: Zone)
    requires Enabled(s, step) && !MovesTrain(step) && !ByMonitor(step)
    ensures BlockStep(s, step, z, s.blocks.Get(z), Next(s, step).blocks.Get(z))
  {
    hide AfterQuiet, AfterRead, Polled, AfterCycle, SentIn, Obey, Free;
    if step == CopyZone {
      PutGet(s.blocks, CopyTarget(s.pc), Next(s, step).blocks.Get(CopyTarget(s.pc)));
    }
  }

  lemma BlockSteps(s: World, step: Step, z: Zone)
    requires Enabled(s, step) && !MovesTrain(step)
    ensures BlockStep(s, step, z, s.blocks.Get(z), Next(s, step).blocks.Get(z))
  {
    hide *;
    if ByMonitor(step) {
      MonitorBlock(s, step, z);
    } else {
      ControlBlock(s, step, z);
    }
  }

  /** The blocks a train step makes: a further edge of the passage, or none. */
  predicate MoveStep(b: Block, b': Block) {
    || b' == b || b' == Unseen(b)
    || (b.happened < 3 && (b' == Emit(b, PASSAGE[b.happened]) || b' == Emit(Unseen(b), PASSAGE[b.happened])))
  }

  lemma ShiftedBlocks(s: World, t: nat, to: Position, here: Block, ahead: Block, z: Zone)
    requires t < |s.trains|
    ensures var y := s.trains[t].zone;
            Shifted(s, t, to, here, ahead).blocks.Get(z)
            == if z == y.Next() then ahead else if z == y then here else s.blocks.Get(z)
  {
    var y := s.trains[t].zone;
    PutGet(s.blocks, y, here);
    PutGet(Put(s.blocks, y, here), y.Next(), ahead);
  }

  /** The edges a train step may emit are the next ones of their passages. */
  lemma MoveEmits(s: World, step: Step)
    requires Inv(s) && Allowed(s, step) && MovesTrain(step)
    ensures step.train < |s.trains|
    ensures var p := s.trains[step.train];
            var b, c := s.blocks.Get(p.zone), s.blocks.Get(p.zone.Next());
            match step
            case Arrive(_) => b.happened == 1
            case RearFirst(_) => b.happened == 2
            case FrontFirst(_) => c.happened == 0
            case Complete(_) => if p.phase == Between then c.happened == 0 else b.happened == 2
            case _ => true
  {
    assert Enabled(s, step);
    hide Inv, Recorded, Free, On, Handover, FastController, CommandingMode;
    HappenedOfTrain(s, step.train);
    if step.FrontFirst? {
      Departing(s, step, step.train);
      RoomToLeave(s, step.train);
    }
  }

  lemma RoomToLeave(s: World, t: nat)
    requires Inv(s) && t < |s.trains| && s.trains[t].phase == Standing
    requires Free(s.trains[t].zone, s.actuators) && s.blocks.Get(s.trains[t].zone).acted
    ensures s.blocks.Get(s.trains[t].zone.Next()).happened == 0
  {
    hide Inv, ViewOf, Recorded, Free, Ring;
    var z := s.trains[t].zone;
    Before(s, t);
    FreeMayGo(s, z);
    FrontFirstRules(ViewOf(s, z), ViewOf(s, z.Next()), ViewOf(s, z.Next().Next()), ViewOf(s, z.Prev()));
  }

  function MoveTo(p: Position, step: Step): Position {
    match step
    case Arrive(_) => Position(p.zone, Standing)
    case RearFirst(_) => Position(p.zone, Between)
    case FrontFirst(_) => Position(p.zone, Spanning)
    case _ => Position(p.zone.Next(), Approaching)
  }

  /** What a train step makes of the block of the train's zone. */
  function MoveHere(b: Block, phase: Phase, step: Step): Block {
    match step
    case Arrive(_) => Emit(Unseen(b), RiseSecond)
    case RearFirst(_) => Emit(Unseen(b), FallSecond)
    case FrontFirst(_) => Unseen(b)
    case _ => if phase == Between then b else Emit(b, FallSecond)
  }

  /** And of the block ahead. */
  function MoveAhead(c: Block, phase: Phase, step: Step): Block {
    if step.FrontFirst? || (step.Complete? && phase == Between) then Emit(c, RiseFirst) else c
  }

  lemma MoveIs(s: World, step: Step)
    requires Enabled(s, step) && MovesTrain(step)
    ensures var p := s.trains[step.train];
            Next(s, step) == Shifted(s, step.train, MoveTo(p, step), MoveHere(s.blocks.Get(p.zone), p.phase, step),
                                     MoveAhead(s.blocks.Get(p.zone.Next()), p.phase, step))
  {
    hide Emit, Unseen, Shifted, Free;
  }

  lemma MoveSteps(s: World, step: Step, z: Zone)
    requires Inv(s) && Allowed(s, step) && MovesTrain(step)
    ensures MoveStep(s.blocks.Get(z), Next(s, step).blocks.Get(z))
  {
    MoveEmits(s, step);
    MoveIs(s, step);
    var p := s.trains[step.train];
    var b, c := s.blocks.Get(p.zone), s.blocks.Get(p.zone.Next());
    ShiftedBlocks(s, step.train, MoveTo(p, step), MoveHere(b, p.phase, step), MoveAhead(c, p.phase, step), z);
    hide Inv, Next, Enabled, Shifted, Emit, Unseen, Handover, FastController, CommandingMode, Free, MoveTo;
    RoundTheRing(p.zone);
  }

  lemma OrderlyMove(b: Block, b': Block)
    requires Recorded(b) && Orderly(b) && MoveStep(b, b')
    ensures Orderly(b')
  {
    UnseenRecorded(b);
    if b.happened < 3 {
      OrderlyEmit(b, PASSAGE[b.happened]);
      OrderlyEmit(Unseen(b), PASSAGE[b.happened]);
    }
    hide Recorded, Emit;
  }

  lemma OrderlyUnread(b: Block, b': Block)
    requires Orderly(b) && b'.happened == b.happened && b'.read == b.read && b'.monitor == b.monitor
    requires b'.queue == b.queue || b.happened != 3
    ensures Orderly(b')
  {
  }

  lemma OrderlyStay(s: World, step: Step, z: Zone, b: Block, b': Block)
    requires Recorded(b) && Orderly(b) && BlockStep(s, step, z, b, b')
    requires b == s.blocks.Get(z) && Sound(s, step)
    ensures Orderly(b')
  {
    hide Recorded, AfterRead, AfterQuiet, Polled, Orderly;
    if step == QuietPoll(z) {
      OrderlyQuiet(b);
    } else if step == ReadEvent(z) {
      OrderlyRead(b);
    } else {
      assert b'.happened == b.happened && b'.read == b.read && b'.monitor == b.monitor;
      OrderlyUnread(b, b');
    }
  }

  lemma OrderlyStep(s: World, step: Step, z: Zone)
    requires Inv(s) && Allowed(s, step) && Sound(s, step) && Orderly(s.blocks.Get(z))
    ensures Orderly(Next(s, step).blocks.Get(z))
  {
    var b := s.blocks.Get(z);
    assert Recorded(b);
    hide Inv, Next, Recorded, Orderly, Sound, Enabled, Handover, FastController, CommandingMode, MoveStep, BlockStep;
    if MovesTrain(step) {
      MoveSteps(s, step, z);
      OrderlyMove(b, Next(s, step).blocks.Get(z));
    } else {
      BlockSteps(s, step, z);
      OrderlyStay(s, step, z, b, Next(s, step).blocks.Get(z));
    }
  }

  lemma StartIsOrderly(e: Execution)
    requires IsExecution(e)
    ensures NoneStranded(e.state(0))
  {
    hide StepAt, On;
  }

  lemma SoundStep(e: Execution, n: nat, k: nat)
    requires IsExecution(e) && SoundFrom(e, n) && n <= k
    ensures Inv(e.state(k)) && Allowed(e.state(k), e.step(k)) && Sound(e.state(k), e.step(k))
    ensures e.state(k + 1) == Next(e.state(k), e.step(k))
  {
    assert StepAt(e, k);
    InvAlways(e, k);
    hide Inv, Next, Enabled, Handover, FastController, CommandingMode, Sound, ConsistentStart;
  }

  lemma {:induction false} OrderlyAlways(e: Execution, n: nat, k: nat, z: Zone)
    requires IsExecution(e) && SoundFrom(e, n) && NoneStranded(e.state(n)) && n <= k
    ensures Orderly(e.state(k).blocks.Get(z))
    decreases k
  {
    hide Inv, Next, Orderly, Sound, Allowed, IsExecution, SoundFrom;
    if n < k {
      OrderlyAlways(e, n, k - 1, z);
      SoundStep(e, n, k - 1);
      OrderlyStep(e.state(k - 1), e.step(k - 1), z);
    }
  }

  /** What works from `n` on works from any later moment on. */
  lemma WorksLater(e: Execution, n: nat, k: nat)
    requires IsExecution(e) && WorksFrom(e, n) && n <= k
    ensures WorksFrom(e, k)
  {
    hide IsExecution, Sound, Running, ModeHeard, Orderly;
    forall z: Zone
      ensures Orderly(e.state(k).blocks.Get(z))
    {
      OrderlyAlways(e, n, k, z);
    }
  }

  // ------------------------------------------------------- without crossings, trains come to rest

  ghost predicate NoCrossingFrom(e: Execution, n: nat) {
    forall k: nat :: n <= k ==> !CrossesAhead(e.state(k), e.step(k))
  }

  ghost predicate Frozen(e: Execution, m: nat) {
    forall k: nat :: m <= k ==> !MovesTrain(e.step(k))
  }

  /** How many moves a train can still make without crossing. */
  function Rank(p: Position): nat {
    match p.phase
    case Spanning => 3
    case Approaching => 2
    case Standing => 1
    case Between => 0
  }

  function RankSum(ps: seq<Position>): nat {
    if ps == [] then 0 else Rank(ps[0]) + RankSum(ps[1..])
  }

  lemma {:induction false} RankSumUpdate(ps: seq<Position>, t: nat, p: Position)
    requires t < |ps|
    ensures RankSum(ps[t := p]) == RankSum(ps) - Rank(ps[t]) + Rank(p)
  {
    if t > 0 {
      assert ps[t := p][1..] == ps[1..][t - 1 := p];
      RankSumUpdate(ps[1..], t - 1, p);
    } else {
      assert ps[t := p][1..] == ps[1..];
    }
  }

  lemma RankStep(s: World, step: Step)
    requires Enabled(s, step) && !CrossesAhead(s, step)
    ensures RankSum(Next(s, step).trains) + (if MovesTrain(step) then 1 else 0) <= RankSum(s.trains)
  {
    TrainCountStep(s, step);
    hide Emit, Unseen, AfterQuiet, AfterRead, Polled, AfterCycle, SentIn, Obey, EndBlock, Put, RankSum, Free;
    match step
    case Arrive(t) => RankSumUpdate(s.trains, t, Position(s.trains[t].zone, Standing));
    case RearFirst(t) => RankSumUpdate(s.trains, t, Position(s.trains[t].zone, Between));
    case Complete(t) => RankSumUpdate(s.trains, t, Position(s.trains[t].zone.Next(), Approaching));
    case _ =>
  }

  lemma {:induction false} RankFalls(e: Execution, n: nat, k: nat)
    requires IsExecution(e) && NoCrossingFrom(e, n) && n <= k
    ensures RankSum(e.state(k).trains) <= RankSum(e.state(n).trains)
    ensures MovesTrain(e.step(k)) ==> RankSum(e.state(k + 1).trains) < RankSum(e.state(n).trains)
  {
    if n < k {
      RankFalls(e, n, k - 1);
      assert StepAt(e, k - 1);
    }
    assert StepAt(e, k);
    hide Next, Enabled, Handover, FastController, CommandingMode, CrossesAhead, RankSum, MovesTrain;
    if n < k {
      RankStep(e.state(k - 1), e.step(k - 1));
    }
    RankStep(e.state(k), e.step(k));
  }

  lemma {:induction false} Freeze(e: Execution, n: nat) returns (m: nat)
    requires IsExecution(e) && NoCrossingFrom(e, n)
    ensures n <= m && Frozen(e, m)
    decreases RankSum(e.state(n).trains)
  {
    hide IsExecution, RankSum, MovesTrain, CrossesAhead;
    if Frozen(e, n) {
      m := n;
    } else {
      var k: nat :| n <= k && MovesTrain(e.step(k));
      RankFalls(e, n, k);
      m := Freeze(e, k + 1);
    }
  }

  // ------------------------------------------------------------------ then everything is read

  /** From `m` on no train moves, in AUTOMATIC or MANUAL. */
  ghost predicate AtRest(e: Execution, m: nat) {
    IsExecution(e) && Fair(e) && Frozen(e, m) && WorksFrom(e, m)
  }

  function BlockAt(e: Execution, k: nat, z: Zone): Block {
    e.state(k).blocks.Get(z)
  }

  lemma {:induction false} TrainsRest(e: Execution, m: nat, k: nat)
    requires AtRest(e, m) && m <= k
    ensures e.state(k).trains == e.state(m).trains
  {
    if m < k {
      TrainsRest(e, m, k - 1);
      assert StepAt(e, k - 1);
      hide Next, Enabled, Fair;
      TrainCountStep(e.state(k - 1), e.step(k - 1));
    }
  }

  /** What a step at rest does to one block. */
  lemma RestStep(e: Execution, m: nat, k: nat, z: Zone)
    requires AtRest(e, m) && m <= k
    ensures BlockStep(e.state(k), e.step(k), z, BlockAt(e, k, z), BlockAt(e, k + 1, z))
    ensures Sound(e.state(k), e.step(k))
    ensures Recorded(BlockAt(e, k, z)) && Orderly(BlockAt(e, k, z))
  {
    assert StepAt(e, k) && Sound(e.state(k), e.step(k));
    InvAlways(e, k);
    OrderlyAlways(e, m, k, z);
    hide Next, Enabled, Sound, RingFrom, Recorded, Orderly, BlockStep, Handover, FastController, CommandingMode,
         ConsistentStart;
    BlockSteps(e.state(k), e.step(k), z);
    assert Recorded(BlockAt(e, k, z));
  }

  function Unread(b: Block): int {
    b.happened - b.read
  }

  /** How many edges that only clear the flag come first in the queue. */
  function Lead(q: seq<LineEvent>): nat {
    if q == [] || q[0] != FallFirst then 0 else 1 + Lead(q[1..])
  }

  lemma {:induction false} LeadAppend(q: seq<LineEvent>, e: LineEvent)
    requires Essential(q) != []
    ensures Lead(q + [e]) == Lead(q)
  {
    if q[0] == FallFirst {
      assert (q + [e])[1..] == q[1..] + [e];
      LeadAppend(q[1..], e);
    }
  }

  lemma UnreadEssential(b: Block)
    requires Recorded(b)
    ensures Unread(b) > 0 <==> Essential(b.queue) != []
    ensures Unread(b) > 0 ==> b.queue != []
    ensures Unread(b) >= 0
  {
    assert |PASSAGE[b.read..b.happened]| == b.happened - b.read;
  }

  /** Nearer to having everything read: an edge fewer to read, or one fewer ahead of it that only clears the flag. */
  predicate Nearer(b: Block, b': Block) {
    Unread(b') < Unread(b) || (Unread(b') == Unread(b) && Lead(b'.queue) < Lead(b.queue))
  }

  lemma ReadNearer(b: Block)
    requires Recorded(b) && Unread(b) > 0 && b.queue != []
    ensures Nearer(b, AfterRead(b))
  {
    hide PollStep;
    UnreadEssential(b);
  }

  lemma StrayNoNearer(b: Block)
    requires Recorded(b) && Unread(b) > 0
    ensures Lead(b.queue + [FallFirst]) == Lead(b.queue)
  {
    UnreadEssential(b);
    LeadAppend(b.queue, FallFirst);
  }

  /** A block step towards having everything read. */
  lemma ReadStep(s: World, step: Step, z: Zone, b: Block, b': Block)
    requires Recorded(b) && Unread(b) > 0 && BlockStep(s, step, z, b, b') && Sound(s, step) && b == s.blocks.Get(z)
    ensures if PollsZone(step, z) then Nearer(b, b')
            else Unread(b') == Unread(b) && Lead(b'.queue) == Lead(b.queue)
  {
    UnreadEssential(b);
    hide Recorded, AfterRead, AfterQuiet, Polled, Lead, Nearer, Essential;
    if step == StrayEdge(z) {
      StrayNoNearer(b);
    } else if step == ReadEvent(z) {
      ReadNearer(b);
    }
  }

  lemma {:induction false} ReadProgress(e: Execution, m: nat, z: Zone, k: nat, j: nat) returns (k': nat)
    requires AtRest(e, m) && m <= k <= j && Unread(BlockAt(e, k, z)) > 0
    requires PollsZone(e.step(j), z) || Barred(e.state(j), z)
    ensures k < k'
    ensures Nearer(BlockAt(e, k, z), BlockAt(e, k', z))
    decreases j - k
  {
    hide AtRest, BlockStep, Sound, Recorded, Orderly, Lead;
    RestStep(e, m, k, z);
    ReadStep(e.state(k), e.step(k), z, BlockAt(e, k, z), BlockAt(e, k + 1, z));
    UnreadEssential(BlockAt(e, k, z));
    if PollsZone(e.step(k), z) {
      k' := k + 1;
    } else {
      k' := ReadProgress(e, m, z, k + 1, j);
    }
  }

  lemma {:induction false} ReadOn(e: Execution, m: nat, z: Zone, k: nat) returns (k': nat)
    requires AtRest(e, m) && m <= k && Unread(BlockAt(e, k, z)) > 0
    ensures k < k' && Unread(BlockAt(e, k', z)) < Unread(BlockAt(e, k, z))
    decreases Lead(BlockAt(e, k, z).queue)
  {
    assert PolledAfter(e, k, z);
    hide AtRest, Lead, PollsZone, Barred;
    var j: nat :| k <= j && (PollsZone(e.step(j), z) || Barred(e.state(j), z));
    k' := ReadProgress(e, m, z, k, j);
    if Unread(BlockAt(e, k', z)) == Unread(BlockAt(e, k, z)) {
      k' := ReadOn(e, m, z, k');
    }
  }

  lemma UnreadIsNat(e: Execution, m: nat, z: Zone, k: nat)
    requires AtRest(e, m) && m <= k
    ensures Unread(BlockAt(e, k, z)) >= 0
  {
    RestStep(e, m, k, z);
    hide AtRest, BlockStep, Sound, Orderly;
    UnreadEssential(BlockAt(e, k, z));
  }

  lemma {:induction false} AllRead(e: Execution, m: nat, z: Zone, k: nat) returns (k': nat)
    requires AtRest(e, m) && m <= k
    ensures k <= k' && Unread(BlockAt(e, k', z)) == 0
    decreases Unread(BlockAt(e, k, z))
  {
    hide AtRest;
    UnreadIsNat(e, m, z, k);
    if Unread(BlockAt(e, k, z)) == 0 {
      k' := k;
    } else {
      k' := ReadOn(e, m, z, k);
      UnreadIsNat(e, m, z, k');
      k' := AllRead(e, m, z, k');
    }
  }

  /** Once read, a zone stays read. */
  lemma ReadStays(e: Execution, m: nat, z: Zone, k: nat, k': nat)
    requires AtRest(e, m) && m <= k <= k' && Unread(BlockAt(e, k, z)) == 0
    ensures Unread(BlockAt(e, k', z)) == 0
    decreases k'
  {
    hide AtRest, BlockStep, Sound, Recorded, Orderly, Unread;
    if k < k' {
      ReadStays(e, m, z, k, k' - 1);
      RestStep(e, m, k' - 1, z);
      ReadStaysStep(e.state(k' - 1), e.step(k' - 1), z, BlockAt(e, k' - 1, z), BlockAt(e, k', z));
    }
  }

  lemma ReadStaysStep(s: World, step: Step, z: Zone, b: Block, b': Block)
    requires Recorded(b) && Unread(b) == 0 && BlockStep(s, step, z, b, b')
    ensures Unread(b') == 0
  {
    UnreadEssential(b);
    if step == ReadEvent(z) && b.queue != [] {
      assert b.queue[0] == FallFirst;
    }
    hide Recorded, PollStep;
  }

  ghost predicate AllReadAt(e: Execution, k: nat) {
    forall z: Zone :: Unread(BlockAt(e, k, z)) == 0
  }

  lemma EverythingRead(e: Execution, m: nat) returns (k: nat)
    requires AtRest(e, m)
    ensures m <= k && AllReadAt(e, k)
  {
    hide AtRest, Unread;
    var k0 := AllRead(e, m, Station, m);
    var k1 := AllRead(e, m, LiftHill, k0);
    var k2 := AllRead(e, m, Ride, k1);
    k := AllRead(e, m, PreStation, k2);
    ReadStays(e, m, Station, k0, k);
    ReadStays(e, m, LiftHill, k1, k);
    ReadStays(e, m, Ride, k2, k);
    forall z: Zone
      ensures Unread(BlockAt(e, k, z)) == 0
    {
      match z
      case Station =>
      case LiftHill =>
      case Ride =>
      case PreStation =>
    }
  }

  lemma AllReadStays(e: Execution, m: nat, k: nat, k': nat)
    requires AtRest(e, m) && m <= k <= k' && AllReadAt(e, k)
    ensures AllReadAt(e, k')
  {
    hide AtRest, Unread;
    forall z: Zone
      ensures Unread(BlockAt(e, k', z)) == 0
    {
      ReadStays(e, m, z, k, k');
    }
  }

  // ------------------------------------------------------------------ and zones left are vacated

  predicate Left(b: Block) {
    b.happened == 3 && b.read == 3
  }

  lemma QuietStep(s: World, step: Step, z: Zone, b: Block, b': Block)
    requires Recorded(b) && Orderly(b) && Left(b) && BlockStep(s, step, z, b, b') && Sound(s, step)
             && b == s.blocks.Get(z)
    ensures if PollsZone(step, z) then
              (b'.happened == 0 && b'.read == 0)
              || (Left(b') && b'.monitor.timeouts == b.monitor.timeouts + 1 < QUIET_POLLS_TO_VACATE)
            else Left(b') && b'.monitor.timeouts == b.monitor.timeouts
  {
  }

  /** With every arrival read, only a train in the gap keeps the zone it left from being timed out. */
  lemma NotBarred(s: World, z: Zone)
    requires !On(s, z, Between) && Recorded(s.blocks.Get(z.Next())) && Unread(s.blocks.Get(z.Next())) == 0
    ensures !Barred(s, z)
  {
    UnreadEssential(s.blocks.Get(z.Next()));
    NoneEssential(s.blocks.Get(z.Next()).queue);
    hide Recorded, On;
  }

  lemma {:induction false} QuietProgress(e: Execution, m: nat, z: Zone, k: nat, j: nat) returns (k': nat)
    requires AtRest(e, m) && m <= k <= j && Left(BlockAt(e, k, z)) && PollsZone(e.step(j), z)
    ensures k < k'
    ensures var b, b' := BlockAt(e, k, z), BlockAt(e, k', z);
            (b'.happened == 0 && b'.read == 0)
            || (Left(b') && b'.monitor.timeouts == b.monitor.timeouts + 1 < QUIET_POLLS_TO_VACATE)
    decreases j - k
  {
    hide AtRest, BlockStep, Sound, Recorded, Orderly, Left;
    RestStep(e, m, k, z);
    QuietStep(e.state(k), e.step(k), z, BlockAt(e, k, z), BlockAt(e, k + 1, z));
    if PollsZone(e.step(k), z) {
      k' := k + 1;
    } else {
      k' := QuietProgress(e, m, z, k + 1, j);
    }
  }

  /** A monitor that is not barred from `k` on polls again. */
  lemma PollsAgain(e: Execution, m: nat, z: Zone, k: nat) returns (j: nat)
    requires AtRest(e, m) && m <= k && AllReadAt(e, k) && !On(e.state(m), z, Between)
    ensures k <= j && PollsZone(e.step(j), z)
  {
    assert PolledAfter(e, k, z);
    hide PollsZone, Barred, Fair, IsExecution, Unread;
    j :| k <= j && (PollsZone(e.step(j), z) || Barred(e.state(j), z));
    TrainsRest(e, m, j);
    RestStep(e, m, j, z.Next());
    AllReadStays(e, m, k, j);
    hide AtRest, BlockStep, Sound, Recorded, Orderly;
    NotBarred(e.state(j), z);
  }

  lemma {:induction false} Vacates(e: Execution, m: nat, z: Zone, k: nat) returns (k': nat)
    requires AtRest(e, m) && m <= k && Left(BlockAt(e, k, z)) && AllReadAt(e, k) && !On(e.state(m), z, Between)
    ensures k < k' && BlockAt(e, k', z).happened == 0 && BlockAt(e, k', z).read == 0
    decreases QUIET_POLLS_TO_VACATE - BlockAt(e, k, z).monitor.timeouts
  {
    hide AtRest, PollsZone, Left, AllReadAt, On;
    var j := PollsAgain(e, m, z, k);
    k' := QuietProgress(e, m, z, k, j);
    AllReadStays(e, m, k, k');
    if BlockAt(e, k', z).happened != 0 || BlockAt(e, k', z).read != 0 {
      k' := Vacates(e, m, z, k');
    }
  }

  /** Everything that happened here has been read, and no departed train is still shown unless it is in the gap. */
  predicate CalmAt(s: World, z: Zone) {
    var b := s.blocks.Get(z);
    b.read == b.happened && (b.happened == 3 ==> On(s, z, Between))
  }

  lemma CalmStep(s: World, step: Step, z: Zone, b: Block, b': Block)
    requires Recorded(b) && CalmAt(s, z) && BlockStep(s, step, z, b, b') && b == s.blocks.Get(z) && Handover(s, step)
    ensures b'.read == b'.happened == b.happened
  {
    UnreadEssential(b);
    hide On;
    if step == ReadEvent(z) && b.queue != [] {
      assert b.queue[0] == FallFirst;
    }
  }

  lemma HandoverKept(e: Execution, m: nat, k: nat)
    requires AtRest(e, m)
    ensures Handover(e.state(k), e.step(k))
  {
    assert StepAt(e, k);
    hide Fair, Next, Enabled, FastController, CommandingMode, Handover, ConsistentStart, Frozen;
  }

  lemma {:induction false} CalmStays(e: Execution, m: nat, z: Zone, k: nat, k': nat)
    requires AtRest(e, m) && m <= k <= k' && CalmAt(e.state(k), z)
    ensures CalmAt(e.state(k'), z) && BlockAt(e, k', z).happened == BlockAt(e, k, z).happened
    decreases k'
  {
    hide AtRest, BlockStep, Sound, Recorded, Orderly, Handover;
    if k < k' {
      HandoverKept(e, m, k' - 1);
      TrainsRest(e, m, k' - 1);
      TrainsRest(e, m, k');
      CalmStays(e, m, z, k, k' - 1);
      RestStep(e, m, k' - 1, z);
      CalmStep(e.state(k' - 1), e.step(k' - 1), z, BlockAt(e, k' - 1, z), BlockAt(e, k', z));
    }
  }

  lemma CalmsDown(e: Execution, m: nat, z: Zone, n: nat) returns (k: nat)
    requires AtRest(e, m) && m <= n && AllReadAt(e, n)
    ensures n <= k && CalmAt(e.state(k), z)
  {
    k := n;
    TrainsRest(e, m, n);
    RestStep(e, m, n, z);
    hide AtRest, BlockStep, Sound, Orderly;
    assert Unread(BlockAt(e, n, z)) == 0;
    if BlockAt(e, n, z).happened == 3 && !On(e.state(m), z, Between) {
      k := Vacates(e, m, z, n);
    }
  }

  /** From `m` on nothing changes but the control thread's own state and edges that do not matter. */
  ghost predicate Calm(e: Execution, m: nat) {
    AtRest(e, m) && forall z: Zone :: CalmAt(e.state(m), z)
  }

  lemma RestContinues(e: Execution, m: nat, k: nat)
    requires AtRest(e, m) && m <= k
    ensures AtRest(e, k)
  {
    WorksLater(e, m, k);
    hide IsExecution, Fair, WorksFrom;
  }

  lemma BecomesCalm(e: Execution, m: nat) returns (k: nat)
    requires AtRest(e, m)
    ensures m <= k && Calm(e, k)
  {
    hide AtRest, CalmAt, AllReadAt;
    var n := EverythingRead(e, m);
    var k0 := CalmsDown(e, m, Station, n);
    AllReadStays(e, m, n, k0);
    var k1 := CalmsDown(e, m, LiftHill, k0);
    AllReadStays(e, m, k0, k1);
    var k2 := CalmsDown(e, m, Ride, k1);
    AllReadStays(e, m, k1, k2);
    k := CalmsDown(e, m, PreStation, k2);
    CalmStays(e, m, Station, k0, k);
    CalmStays(e, m, LiftHill, k1, k);
    CalmStays(e, m, Ride, k2, k);
    RestContinues(e, m, k);
    forall z: Zone
      ensures CalmAt(e.state(k), z)
    {
      match z
      case Station =>
      case LiftHill =>
      case Ride =>
      case PreStation =>
    }
  }

  // ------------------------------------------------- then the controller commands what it sees

  /** What the four monitors show. */
  function Shown(s: World): Snapshot {
    PerZone(s.blocks.station.monitor.internal, s.blocks.liftHill.monitor.internal,
            s.blocks.ride.monitor.internal, s.blocks.preStation.monitor.internal)
  }

  /** Where a whole AUTOMATIC cycle that sees `zones` puts the actuators, wherever they were. */
  function Aim(zones: Snapshot): Actuators {
    Effect(AUTOMATIC, zones, 0, 0, PerZone(0, 0, 0, 0))
  }

  lemma AimWhatever(zones: Snapshot, releaseGo: byte, reply: byte, a: Actuators)
    ensures Effect(AUTOMATIC, zones, releaseGo, reply, a) == Aim(zones)
  {
  }

  predicate CopyTrue(s: World, z: Zone) {
    Copied(s.pc, z) ==>
      && s.blocks.Get(z).copy == s.blocks.Get(z).monitor.internal
      && (On(s, z, Standing) ==> s.blocks.Get(z).seen)
  }

  ghost predicate CopiesTrue(s: World) {
    forall z: Zone :: CopyTrue(s, z)
  }

  /** None of the commands would move an actuator from where `a` has it. */
  predicate Keep(ms: seq<Message>, a: Actuators) {
    forall i :: 0 <= i < |ms| ==> Obey(ms[i], a) == a
  }

  /**
   * The first `c` pending commands bring the actuators to where the zones shown call for and the rest
   * leave them there; by then every standing train has been seen by a decision that has been obeyed.
   */
  ghost predicate Decided(s: World, c: nat) {
    && c <= |s.pending| && ObeyAll(s.pending[..c], s.actuators) == Aim(Shown(s)) && Keep(s.pending[c..], Aim(Shown(s)))
    && forall z: Zone :: On(s, z, Standing) ==> DueWithin(s.blocks.Get(z), c)
  }

  predicate DueWithin(b: Block, c: nat) {
    b.acted || 0 < b.due <= c
  }

  /** And they have been obeyed. */
  ghost predicate Steady(s: World) {
    CopiesTrue(s) && Decided(s, 0)
  }

  /** A step that moves no train and changes nothing the monitors show. */
  ghost predicate Still(s: World, step: Step) {
    && Inv(s) && Allowed(s, step) && !MovesTrain(step) && Shown(Next(s, step)) == Shown(s)
    && (forall z: Zone :: CalmAt(s, z))
    && (step.HearMode? ==> Running(ModeHeard(s, step)))
  }

  /** A cycle that decides here commands what a whole AUTOMATIC cycle would, given what is shown. */
  predicate Served(s: World, step: Step) {
    step.HearMode? ==>
      Effect(ModeHeard(s, step), Shown(s), s.memory.releaseGo, StartFromReply(1, step.startReply), Settled(s))
      == Aim(Shown(s))
  }

  lemma StandingShown(s: World, z: Zone)
    requires Inv(s) && CalmAt(s, z) && On(s, z, Standing)
    ensures s.blocks.Get(z).monitor.internal == Entered
  {
    BeforeAt(s, z);
    assert ViewOf(s, z).standing;
    hide Inv, ViewOf, On;
  }

  lemma MonitorFrame(s: World, step: Step, z: Zone)
    requires Enabled(s, step) && ByMonitor(step)
    ensures var s' := Next(s, step);
            && s'.pc == s.pc && s'.trains == s.trains && s'.actuators == s.actuators
            && s'.pending == s.pending && s'.memory == s.memory
            && s'.blocks.Get(z).copy == s.blocks.Get(z).copy && s'.blocks.Get(z).seen == s.blocks.Get(z).seen
            && s'.blocks.Get(z).acted == s.blocks.Get(z).acted && s'.blocks.Get(z).due == s.blocks.Get(z).due
  {
    hide PollStep;
    match step
    case StrayEdge(y) => PutGet(s.blocks, y, Next(s, step).blocks.Get(y));
    case QuietPoll(y) => PutGet(s.blocks, y, Next(s, step).blocks.Get(y));
    case FailedRead(y) => PutGet(s.blocks, y, Next(s, step).blocks.Get(y));
    case ReadEvent(y) => PutGet(s.blocks, y, Next(s, step).blocks.Get(y));
    case _ =>
  }

  lemma CopyStepCopies(s: World, z: Zone)
    requires Inv(s) && s.pc != AskMode && s.pc != Sending && CalmAt(s, z) && CopyTrue(s, z)
    ensures CopyTrue(AfterCopying(s), z)
  {
    CopyTargetFacts(s.pc);
    if On(s, z, Standing) {
      StandingShown(s, z);
    }
    hide Inv;
    PutGet(s.blocks, CopyTarget(s.pc), AfterCopying(s).blocks.Get(CopyTarget(s.pc)));
  }

  lemma ShownAt(s: World, z: Zone)
    ensures Shown(s).Get(z) == s.blocks.Get(z).monitor.internal
    ensures Copies(s).Get(z) == s.blocks.Get(z).copy
  {
  }

  lemma SameSnapshot<T>(a: PerZone<T>, b: PerZone<T>)
    requires forall z: Zone :: a.Get(z) == b.Get(z)
    ensures a == b
  {
    assert a.Get(Station) == b.Get(Station) && a.Get(LiftHill) == b.Get(LiftHill);
    assert a.Get(Ride) == b.Get(Ride) && a.Get(PreStation) == b.Get(PreStation);
  }

  lemma ControlFrame(s: World, step: Step, z: Zone)
    requires Enabled(s, step) && (step.HearMode? || step == EndCycle || step == ObeyNext)
    ensures var s' := Next(s, step);
            && s'.trains == s.trains && s'.blocks.Get(z).monitor == s.blocks.Get(z).monitor
            && s'.blocks.Get(z).copy == s.blocks.Get(z).copy
            && if step == EndCycle then !Copied(s'.pc, z)
               else s'.blocks.Get(z).seen == s.blocks.Get(z).seen && Copied(s'.pc, z) == Copied(s.pc, z)
  {
    hide Obey, SentIn, AfterCycle;
  }

  lemma CopyTrueStep(s: World, step: Step, z: Zone)
    requires Still(s, step) && CopyTrue(s, z)
    ensures CopyTrue(Next(s, step), z)
  {
    ShownAt(s, z);
    ShownAt(Next(s, step), z);
    assert CalmAt(s, z) && Enabled(s, step) && Inv(s);
    if step == CopyZone {
      CopyStepCopies(s, z);
      assert Next(s, step) == AfterCopying(s);
      hide *;
    } else {
      hide Inv, Next, Shown, CalmAt, Enabled, Allowed;
      if ByMonitor(step) {
        MonitorFrame(s, step, z);
      } else {
        ControlFrame(s, step, z);
      }
    }
  }

  lemma CopiesAreShown(s: World)
    requires s.pc == AskMode && CopiesTrue(s)
    ensures Copies(s) == Shown(s)
  {
    forall z: Zone
      ensures Copies(s).Get(z) == Shown(s).Get(z)
    {
      assert CopyTrue(s, z);
    }
    SameSnapshot(Copies(s), Shown(s));
  }

  lemma CopiesTrueStep(s: World, step: Step)
    requires Still(s, step) && CopiesTrue(s)
    ensures CopiesTrue(Next(s, step))
  {
    forall z: Zone
      ensures CopyTrue(Next(s, step), z)
    {
      assert CopyTrue(s, z);
      hide *;
      CopyTrueStep(s, step, z);
    }
    hide CopyTrue, Still, Next;
  }

  lemma {:induction false} KeepSettles(ms: seq<Message>, a: Actuators)
    requires Keep(ms, a)
    ensures ObeyAll(ms, a) == a
  {
    hide Obey;
    if ms != [] {
      assert Obey(ms[0], a) == a;
      assert Keep(ms[1..], a);
      KeepSettles(ms[1..], a);
    }
  }

  /** With one command at most to each actuator, commands that come to nothing together do so one by one. */
  lemma {:induction false} EachKeeps(ms: seq<Message>, a: Actuators)
    requires OneEach(ms) && ObeyAll(ms, a) == a
    ensures Keep(ms, a)
  {
    if ms != [] {
      var b := Obey(ms[0], a);
      OneEachRest(ms);
      forall z: Zone
        ensures b.Get(z) == a.Get(z)
      {
        if Addresses(ms[0], z) {
          Untouched(ms[1..], b, z);
        }
      }
      SameSnapshot(b, a);
      hide OneEach, Obey, ObeyAll;
      EachKeeps(ms[1..], a);
      assert forall i :: 0 < i < |ms| ==> ms[i] == ms[1..][i - 1];
    }
  }

  lemma SentKeeps(s: World, c: Cycle)
    requires Running(ModeIn(s.memory, c))
    requires Settled(AfterHearing(s, c)) == Settled(s)
    ensures Keep(SentIn(s.memory, c), Settled(s))
  {
    HearSettles(s, c);
    SentInOneEach(s.memory, c);
    hide Settled, AfterHearing, Effect, SentIn, Keep, OneEach, ModeIn, ObeyAll;
    EachKeeps(SentIn(s.memory, c), Settled(s));
  }

  lemma DecidedSettles(s: World, c: nat)
    requires Decided(s, c)
    ensures Settled(s) == Aim(Shown(s))
  {
    hide On, Aim, Shown, Keep, ObeyAll;
    assert s.pending == s.pending[..c] + s.pending[c..];
    ObeyAllAppend(s.pending[..c], s.pending[c..], s.actuators);
    KeepSettles(s.pending[c..], Aim(Shown(s)));
  }

  /** Only decisions and the obeying of commands touch what is pending. */
  lemma LineFrame(s: World, step: Step)
    requires Enabled(s, step) && !step.HearMode? && step != ObeyNext
    ensures Next(s, step).pending == s.pending && Next(s, step).actuators == s.actuators
  {
    hide Emit, Unseen, AfterQuiet, AfterRead, Polled, AfterCycle, SentIn, Obey, Put, Free;
  }

  lemma DueStep(s: World, step: Step, z: Zone, c: nat)
    requires Enabled(s, step) && !MovesTrain(step) && DueWithin(s.blocks.Get(z), c)
    ensures DueWithin(Next(s, step).blocks.Get(z), if step == ObeyNext && c > 0 then c - 1 else c)
  {
    if ByMonitor(step) {
      MonitorFrame(s, step, z);
    } else if step == CopyZone {
      PutGet(s.blocks, CopyTarget(s.pc), Next(s, step).blocks.Get(CopyTarget(s.pc)));
    } else {
      hide Obey, SentIn, AfterCycle;
    }
  }

  /** A cycle that copies truly and is served decides as it should, having seen every standing train. */
  lemma HearMakesDue(s: World, step: Step, z: Zone)
    requires Enabled(s, step) && CopyTrue(s, z) && step.HearMode? && On(s, z, Standing) && Sends(s)
    ensures DueWithin(Next(s, step).blocks.Get(z), |Next(s, step).pending|)
  {
    var c := CycleOf(s, step.modeReply, step.startReply);
    assert |SentIn(s.memory, c)| > 0;
    hide SentIn, AfterCycle;
    assert Next(s, step) == AfterHearing(s, c);
    assert |s.pending| + |SentIn(s.memory, c)| == |Next(s, step).pending| > 0;
    assert s.blocks.Get(z).due <= |s.pending|;
  }

  lemma HearIsNext(s: World, step: Step)
    requires Still(s, step) && step.HearMode?
    ensures Inv(s) && s.pc == AskMode && Shown(Next(s, step)) == Shown(s) && Next(s, step).trains == s.trains
    ensures Running(ModeIn(s.memory, CycleOf(s, step.modeReply, step.startReply)))
    ensures Next(s, step) == AfterHearing(s, CycleOf(s, step.modeReply, step.startReply))
  {
    hide Inv, Shown, CalmAt, SentIn, AfterCycle, Handover, FastController, CommandingMode, Running;
  }

  lemma HearAims(s: World, step: Step)
    requires Still(s, step) && Served(s, step) && CopiesTrue(s) && step.HearMode?
    ensures Settled(Next(s, step)) == Aim(Shown(Next(s, step)))
  {
    hide Still, Inv, Next, Aim, Shown, CopyTrue, CopiesTrue, Settled, Effect, SentIn, Copies, AfterHearing, ModeIn;
    HearIsNext(s, step);
    HearSettles(s, CycleOf(s, step.modeReply, step.startReply));
    CopiesAreShown(s);
  }

  lemma HearDecides(s: World, step: Step)
    requires Still(s, step) && Served(s, step) && CopiesTrue(s) && step.HearMode?
    ensures Decided(Next(s, step), |Next(s, step).pending|)
  {
    var s' := Next(s, step);
    HearAims(s, step);
    HearIsNext(s, step);
    assert Enabled(s, step) && Sends(s);
    hide Still, Inv, Next, Aim, Shown, CopyTrue, ObeyAll, Enabled, AfterHearing, Sends, DueWithin;
    forall z: Zone | On(s', z, Standing)
      ensures DueWithin(s'.blocks.Get(z), |s'.pending|)
    {
      assert On(s, z, Standing);
      HearMakesDue(s, step, z);
    }
    assert s'.pending[..|s'.pending|] == s'.pending;
  }

  /** A further decision only adds commands that change nothing. */
  lemma DecidedHear(s: World, step: Step, c: nat)
    requires Still(s, step) && Served(s, step) && CopiesTrue(s) && Decided(s, c) && step.HearMode?
    ensures var s' := Next(s, step);
            && c <= |s'.pending| && s'.actuators == s.actuators && s'.pending[..c] == s.pending[..c]
            && Keep(s'.pending[c..], Aim(Shown(s)))
  {
    var cycle := CycleOf(s, step.modeReply, step.startReply);
    hide Still, Inv, Next, Aim, Shown, CopiesTrue, ObeyAll, Settled, SentIn, AfterCycle, ModeIn, Served, On, AllDecided,
         Running, Keep, CycleOf;
    HearAims(s, step);
    HearIsNext(s, step);
    DecidedSettles(s, c);
    SentKeeps(s, cycle);
    KeepBoth(s.pending, SentIn(s.memory, cycle), c, Aim(Shown(s)));
  }

  lemma KeepBoth(ms: seq<Message>, ns: seq<Message>, c: nat, a: Actuators)
    requires c <= |ms| && Keep(ms[c..], a) && Keep(ns, a)
    ensures Keep((ms + ns)[c..], a) && (ms + ns)[..c] == ms[..c]
  {
    hide Obey;
    assert (ms + ns)[c..] == ms[c..] + ns;
  }

  /** Obeying a command brings the end of the first `c` nearer, or changes nothing. */
  lemma DecidedObey(ms: seq<Message>, a: Actuators, aim: Actuators, c: nat)
    requires ms != [] && c <= |ms| && ObeyAll(ms[..c], a) == aim && Keep(ms[c..], aim)
    ensures var d := if c > 0 then c - 1 else 0;
            d <= |ms[1..]| && ObeyAll(ms[1..][..d], Obey(ms[0], a)) == aim && Keep(ms[1..][d..], aim)
  {
    hide Obey;
    if c > 0 {
      assert ms[..c][1..] == ms[1..][..c - 1] && ms[1..][c - 1..] == ms[c..];
    } else {
      assert ms[..0] == [] && ms[1..][..0] == [] && Obey(ms[c..][0], aim) == aim;
      forall i | 0 <= i < |ms[1..]|
        ensures Obey(ms[1..][i], aim) == aim
      {
        assert ms[1..][i] == ms[c..][i + 1];
      }
      assert ms[1..][0..] == ms[1..];
    }
  }

  lemma DecidedLine(s: World, step: Step, c: nat, d: nat)
    requires Still(s, step) && Served(s, step) && CopiesTrue(s) && Decided(s, c)
    requires d == if step == ObeyNext && c > 0 then c - 1 else c
    ensures var s' := Next(s, step);
            && d <= |s'.pending| && ObeyAll(s'.pending[..d], s'.actuators) == Aim(Shown(s))
            && Keep(s'.pending[d..], Aim(Shown(s)))
  {
    assert Enabled(s, step);
    if step.HearMode? {
      DecidedHear(s, step, c);
    } else if step == ObeyNext {
      DecidedObey(s.pending, s.actuators, Aim(Shown(s)), c);
    } else {
      LineFrame(s, step);
      hide Next;
    }
    hide Inv, Aim, Shown, CopiesTrue, ObeyAll, Obey, On, Keep, CalmAt, SentIn, AfterCycle;
  }

  lemma DecidedStep(s: World, step: Step, c: nat)
    requires Still(s, step) && Served(s, step) && CopiesTrue(s) && Decided(s, c)
    ensures Decided(Next(s, step), if step == ObeyNext && c > 0 then c - 1 else c)
  {
    var d := if step == ObeyNext && c > 0 then c - 1 else c;
    assert Enabled(s, step) && Shown(Next(s, step)) == Shown(s);
    DecidedLine(s, step, c, d);
    TrainCountStep(s, step);
    hide Next, Inv, Allowed, Enabled, Aim, Shown, CalmAt, Served, CopiesTrue, ObeyAll, Keep, DueWithin, Running,
         ModeHeard;
    forall z: Zone | On(Next(s, step), z, Standing)
      ensures DueWithin(Next(s, step).blocks.Get(z), d)
    {
      assert On(s, z, Standing);
      DueStep(s, step, z, c);
    }
  }

  lemma ActedStep(s: World, step: Step, z: Zone)
    requires Still(s, step) && s.blocks.Get(z).acted
    ensures Next(s, step).blocks.Get(z).acted
  {
    BlockSteps(s, step, z);
    hide Inv, Next, AfterQuiet, AfterRead, Polled, Aim, Shown, CalmAt;
    if ByMonitor(step) {
      MonitorFrame(s, step, z);
    }
  }

  lemma SteadyStep(s: World, step: Step)
    requires Still(s, step) && Served(s, step) && Steady(s)
    ensures Steady(Next(s, step))
  {
    hide Still, Served, CopiesTrue, Decided, Next;
    CopiesTrueStep(s, step);
    DecidedStep(s, step, 0);
  }

  /** What a steady state has brought about. */
  lemma SteadyActuators(s: World)
    requires Steady(s)
    ensures s.actuators == Aim(Shown(s)) && forall z: Zone :: On(s, z, Standing) ==> s.blocks.Get(z).acted
  {
    hide Aim, Shown, CopiesTrue, On, Keep;
    assert s.pending[..0] == [];
  }

  /** After a cycle nothing is copied yet, so nothing is copied wrong. */
  lemma NothingCopied(s: World)
    requires Enabled(s, EndCycle)
    ensures CopiesTrue(Next(s, EndCycle))
  {
    hide On;
  }

  lemma CalmAlways(e: Execution, m: nat, k: nat, z: Zone)
    requires Calm(e, m) && m <= k
    ensures CalmAt(e.state(k), z) && BlockAt(e, k + 1, z).monitor.internal == BlockAt(e, k, z).monitor.internal
  {
    assert CalmAt(e.state(m), z);
    hide AtRest;
    CalmStays(e, m, z, m, k);
    CalmStays(e, m, z, m, k + 1);
    RestStep(e, m, k, z);
    RestStep(e, m, k + 1, z);
    hide BlockStep, Sound, Orderly;
  }

  lemma StillAt(e: Execution, m: nat, k: nat)
    requires Calm(e, m) && m <= k
    ensures Still(e.state(k), e.step(k)) && e.state(k + 1) == Next(e.state(k), e.step(k))
    ensures Shown(e.state(k + 1)) == Shown(e.state(k))
  {
    InvAlways(e, k);
    assert StepAt(e, k) && !MovesTrain(e.step(k)) && RunningFrom(e, m);
    hide Inv, Next, Enabled, Handover, FastController, CommandingMode, MovesTrain, ModeHeard, Calm, CalmAt, Shown,
         Running;
    forall z: Zone
      ensures CalmAt(e.state(k), z) && Shown(e.state(k + 1)).Get(z) == Shown(e.state(k)).Get(z)
    {
      CalmAlways(e, m, k, z);
      ShownAt(e.state(k), z);
      ShownAt(e.state(k + 1), z);
    }
    SameSnapshot(Shown(e.state(k + 1)), Shown(e.state(k)));
  }

  lemma {:induction false} CopiesTrueStays(e: Execution, m: nat, k: nat, k': nat)
    requires Calm(e, m) && m <= k <= k' && CopiesTrue(e.state(k))
    ensures CopiesTrue(e.state(k'))
    decreases k'
  {
    hide *;
    if k < k' {
      CopiesTrueStays(e, m, k, k' - 1);
      StillAt(e, m, k' - 1);
      CopiesTrueStep(e.state(k' - 1), e.step(k' - 1));
    }
  }

  lemma NextTurn(e: Execution, m: nat, n: nat) returns (k: nat)
    requires Calm(e, m) && m <= n
    ensures n <= k && e.step(k) == EndCycle
  {
    assert TurnsAfter(e, n);
    k :| n <= k && e.step(k) == EndCycle;
  }

  // ------------------------------------------------------- in MANUAL too, once a start is granted

  /** If the station may dispatch, a start has been granted. */
  predicate Primed(s: World) {
    Authorised(Shown(s), Station) ==> s.memory.releaseGo != 0
  }

  lemma ManualAims(zones: Snapshot, releaseGo: byte, reply: byte, a: Actuators)
    requires Authorised(zones, Station) ==> releaseGo != 0
    ensures Effect(MANUAL, zones, releaseGo, reply, a) == Aim(zones)
  {
  }

  lemma PrimedServes(s: World, step: Step)
    requires Still(s, step) && Primed(s)
    ensures Served(s, step)
  {
    if step.HearMode? {
      var go, reply := s.memory.releaseGo, StartFromReply(1, step.startReply);
      AimWhatever(Shown(s), go, reply, Settled(s));
      if ModeHeard(s, step) == MANUAL {
        ManualAims(Shown(s), go, reply, Settled(s));
      }
    }
    hide Inv, Next, Allowed, ModeHeard, Effect, Aim, StartFromReply, CalmAt, Shown, Settled;
  }

  /** A release outlives a cycle that finds the station ready, and one that asks for a start with success makes one. */
  lemma ReleaseKept(mode: byte, zones: Snapshot, releaseGo: byte, reply: byte)
    requires Running(mode) && Authorised(zones, Station)
    ensures releaseGo != 0 ==> Decide(mode, zones, releaseGo, reply).releaseGo != 0
    ensures mode == MANUAL && reply != 0 ==> Decide(mode, zones, releaseGo, reply).releaseGo != 0
  {
  }

  lemma MemoryFrame(s: World, step: Step)
    requires Enabled(s, step)
    ensures Next(s, step).memory
            == if step.HearMode? then AfterCycle(s.memory, CycleOf(s, step.modeReply, step.startReply)) else s.memory
  {
    hide Emit, Unseen, AfterQuiet, AfterRead, Polled, Put, Obey, SentIn, AfterCycle, Free, EndBlock;
  }

  lemma PrimedStep(s: World, step: Step)
    requires Still(s, step) && CopiesTrue(s) && (Primed(s) || GetsStart(s, step))
    ensures Primed(Next(s, step))
  {
    assert Enabled(s, step);
    MemoryFrame(s, step);
    if step.HearMode? {
      CopiesAreShown(s);
      if Authorised(Shown(s), Station) {
        ReleaseKept(ModeHeard(s, step), Shown(s), s.memory.releaseGo, StartFromReply(1, step.startReply));
      }
    }
    hide Inv, Next, Allowed, ModeIn, Decide, StartFromReply, CalmAt, Shown, CopiesTrue;
  }

  ghost predicate ServedFrom(e: Execution, m: nat) {
    forall k: nat :: m <= k ==> Served(e.state(k), e.step(k))
  }

  lemma {:induction false} PrimedStays(e: Execution, m: nat, k: nat, k': nat)
    requires Calm(e, m) && m <= k <= k' && CopiesTrue(e.state(k)) && Primed(e.state(k))
    ensures Primed(e.state(k'))
    decreases k'
  {
    hide *;
    if k < k' {
      PrimedStays(e, m, k, k' - 1);
      CopiesTrueStays(e, m, k, k' - 1);
      StillAt(e, m, k' - 1);
      PrimedStep(e.state(k' - 1), e.step(k' - 1));
    }
  }

  lemma PrimedIsServed(e: Execution, m: nat, k: nat)
    requires Calm(e, m) && m <= k && CopiesTrue(e.state(k)) && Primed(e.state(k))
    ensures ServedFrom(e, k)
  {
    hide Calm, CopiesTrue, Primed, Served;
    forall i: nat | k <= i
      ensures Served(e.state(i), e.step(i))
    {
      PrimedStays(e, m, k, i);
      StillAt(e, m, i);
      PrimedServes(e.state(i), e.step(i));
    }
  }

  lemma StartPrimes(e: Execution, m: nat, j: nat)
    requires Calm(e, m) && m <= j && CopiesTrue(e.state(j)) && GetsStart(e.state(j), e.step(j))
    ensures CopiesTrue(e.state(j + 1)) && Primed(e.state(j + 1))
  {
    hide *;
    StillAt(e, m, j);
    PrimedStep(e.state(j), e.step(j));
    CopiesTrueStep(e.state(j), e.step(j));
  }

  /** A cycle that is not served asks for a start. */
  lemma UnservedAsks(s: World, step: Step)
    requires Still(s, step) && CopiesTrue(s) && !Served(s, step)
    ensures AsksForStart(s, step)
  {
    assert Enabled(s, step);
    CopiesAreShown(s);
    AimWhatever(Shown(s), s.memory.releaseGo, StartFromReply(1, step.startReply), Settled(s));
    if ModeHeard(s, step) == MANUAL && !AsksForStart(s, step) {
      ManualAims(Shown(s), s.memory.releaseGo, StartFromReply(1, step.startReply), Settled(s));
    }
    hide Inv, Next, Allowed, ModeIn, Effect, Aim, StartFromReply, CalmAt, Shown, CopiesTrue, Copies, Settled;
  }

  lemma AnsweredLater(e: Execution, i: nat) returns (j: nat)
    requires Fair(e) && forall n: nat :: AsksAfter(e, n)
    ensures i <= j && GetsStart(e.state(j), e.step(j))
  {
    hide AsksAfter, GetsStart;
    assert PressedAfter(e, i);
    j :| i <= j && GetsStart(e.state(j), e.step(j));
  }

  lemma CalmIsFair(e: Execution, m: nat)
    requires Calm(e, m)
    ensures Fair(e)
  {
    hide Fair;
  }

  lemma LookForUnserved(e: Execution, k: nat) returns (found: bool, i: nat)
    ensures if found then k <= i && !Served(e.state(i), e.step(i)) else ServedFrom(e, k)
  {
    hide Served;
    found, i := false, k;
    if later: nat :| k <= later && !Served(e.state(later), e.step(later)) {
      found, i := true, later;
    }
  }

  /** As long as some later cycle is not served, the Pi asks for a start again. */
  lemma UnservedAsksAgain(e: Execution, m: nat, k: nat, n: nat)
    requires Calm(e, m) && m <= k <= n && CopiesTrue(e.state(k)) && !ServedFrom(e, n)
    ensures AsksAfter(e, n)
  {
    hide *;
    var found, i := LookForUnserved(e, n);
    if found {
      CopiesTrueStays(e, m, k, i);
      StillAt(e, m, i);
      UnservedAsks(e.state(i), e.step(i));
      AskedAt(e, n, i);
    }
  }

  lemma AskedAt(e: Execution, n: nat, i: nat)
    requires n <= i && AsksForStart(e.state(i), e.step(i))
    ensures AsksAfter(e, n)
  {
    hide AsksForStart;
  }

  lemma AskedBefore(e: Execution, k: nat, n: nat)
    requires n <= k && AsksAfter(e, k)
    ensures AsksAfter(e, n)
  {
    hide AsksForStart;
  }

  /** If no moment from `k` on begins a time of served cycles, the Pi asks for ever, and so gets a start. */
  lemma AsksForEver(e: Execution, m: nat, k: nat)
    requires Calm(e, m) && m <= k && CopiesTrue(e.state(k)) && forall n: nat :: k <= n ==> !ServedFrom(e, n)
    ensures forall n: nat :: AsksAfter(e, n)
  {
    hide *;
    forall n: nat
      ensures AsksAfter(e, n)
    {
      var late := if k < n then n else k;
      UnservedAsksAgain(e, m, k, late);
      AskedBefore(e, late, n);
    }
  }

  lemma BecomesServed(e: Execution, m: nat) returns (k: nat)
    requires Calm(e, m)
    ensures m <= k && ServedFrom(e, k) && CopiesTrue(e.state(k))
  {
    hide *;
    CalmIsFair(e, m);
    var turn := NextTurn(e, m, m);
    TurnBegins(e, m, turn);
    k := turn + 1;
    if served: nat :| k <= served && ServedFrom(e, served) {
      CopiesTrueStays(e, m, k, served);
      k := served;
    } else {
      AsksForEver(e, m, k);
      var j := AnsweredLater(e, k);
      CopiesTrueStays(e, m, k, j);
      StartPrimes(e, m, j);
      PrimedIsServed(e, m, j + 1);
      assert false;
    }
  }

  lemma ServedAt(e: Execution, m: nat, k: nat)
    requires ServedFrom(e, m) && m <= k
    ensures Served(e.state(k), e.step(k))
  {
    hide Served;
  }

  /** What has been decided is obeyed in the end, whatever else is decided meanwhile. */
  lemma {:induction false} ObeyedInTheEnd(e: Execution, m: nat, n: nat, k: nat, c: nat) returns (k': nat)
    requires Calm(e, m) && ServedFrom(e, n) && m <= n <= k && CopiesTrue(e.state(k)) && Decided(e.state(k), c)
    ensures k <= k' && Steady(e.state(k'))
    decreases c
  {
    hide *;
    if c == 0 {
      k' := k;
      SteadyBy(e.state(k));
    } else {
      var j := NextObeyed(e, m, n, k, c);
      k' := ObeyedInTheEnd(e, m, n, j, c - 1);
    }
  }

  lemma SteadyBy(s: World)
    requires CopiesTrue(s) && Decided(s, 0)
    ensures Steady(s)
  {
    hide CopiesTrue, Decided;
  }

  lemma NextObeyed(e: Execution, m: nat, n: nat, k: nat, c: nat) returns (k': nat)
    requires Calm(e, m) && ServedFrom(e, n) && m <= n <= k && CopiesTrue(e.state(k)) && Decided(e.state(k), c) && c > 0
    ensures k < k' && CopiesTrue(e.state(k')) && Decided(e.state(k'), c - 1)
  {
    CalmIsFair(e, m);
    assert ObeysAfter(e, k);
    hide Calm, ServedFrom, CopiesTrue, Decided, Fair;
    var j: nat :| k <= j && (e.step(j) == ObeyNext || e.state(j).pending == []);
    k' := ObeyedBy(e, m, n, k, c, j);
  }

  lemma DecidedAt(e: Execution, m: nat, n: nat, k: nat, c: nat)
    requires Calm(e, m) && ServedFrom(e, n) && m <= n <= k && CopiesTrue(e.state(k)) && Decided(e.state(k), c)
    ensures CopiesTrue(e.state(k + 1))
    ensures Decided(e.state(k + 1), if e.step(k) == ObeyNext && c > 0 then c - 1 else c)
  {
    hide *;
    ServedAt(e, n, k);
    StillAt(e, m, k);
    CopiesTrueStep(e.state(k), e.step(k));
    DecidedStep(e.state(k), e.step(k), c);
  }

  lemma {:induction false} ObeyedBy(e: Execution, m: nat, n: nat, k: nat, c: nat, j: nat) returns (k': nat)
    requires Calm(e, m) && ServedFrom(e, n) && m <= n <= k <= j && CopiesTrue(e.state(k)) && Decided(e.state(k), c)
    requires c > 0 && (e.step(j) == ObeyNext || e.state(j).pending == [])
    ensures k < k' && CopiesTrue(e.state(k')) && Decided(e.state(k'), c - 1)
    decreases j - k
  {
    assert e.state(k).pending != [];
    hide *;
    DecidedAt(e, m, n, k, c);
    if e.step(k) == ObeyNext {
      k' := k + 1;
    } else {
      k' := ObeyedBy(e, m, n, k + 1, c, j);
    }
  }

  lemma {:induction false} SteadyStays(e: Execution, m: nat, k: nat, k': nat)
    requires Calm(e, m) && ServedFrom(e, k) && m <= k <= k' && Steady(e.state(k))
    ensures Steady(e.state(k'))
    decreases k'
  {
    hide *;
    if k < k' {
      ServedAt(e, k, k' - 1);
      SteadyStays(e, m, k, k' - 1);
      StillAt(e, m, k' - 1);
      SteadyStep(e.state(k' - 1), e.step(k' - 1));
    }
  }

  lemma ServedLater(e: Execution, m: nat, k: nat)
    requires ServedFrom(e, m) && m <= k
    ensures ServedFrom(e, k)
  {
    hide Served;
  }

  lemma TurnBegins(e: Execution, m: nat, i: nat)
    requires Calm(e, m) && m <= i && e.step(i) == EndCycle
    ensures CopiesTrue(e.state(i + 1)) && e.state(i + 1).pc != Sending
  {
    StillAt(e, m, i);
    assert Enabled(e.state(i), EndCycle);
    assert Next(e.state(i), EndCycle).pc != Sending;
    hide *;
    NothingCopied(e.state(i));
  }

  lemma PcStep(s: World, step: Step)
    requires Enabled(s, step) && s.pc != Sending && Next(s, step).pc == Sending
    ensures step.HearMode?
  {
    hide Emit, Unseen, AfterQuiet, AfterRead, Polled, AfterCycle, SentIn, Obey, Put, Free, AllObeyed;
  }

  /** Before a cycle ends it decides. */
  lemma {:induction false} HearsBetween(e: Execution, m: nat, i: nat, j: nat) returns (h: nat)
    requires Calm(e, m) && m <= i <= j && e.state(i).pc != Sending && e.state(j).pc == Sending
    ensures i <= h < j && e.step(h).HearMode?
    decreases j
  {
    hide *;
    if e.state(j - 1).pc == Sending {
      h := HearsBetween(e, m, i, j - 1);
    } else {
      PcAt(e, m, j - 1);
      h := j - 1;
    }
  }

  lemma PcAt(e: Execution, m: nat, k: nat)
    requires Calm(e, m) && m <= k && e.state(k).pc != Sending && e.state(k + 1).pc == Sending
    ensures e.step(k).HearMode?
  {
    StillAt(e, m, k);
    assert Enabled(e.state(k), e.step(k));
    hide *;
    PcStep(e.state(k), e.step(k));
  }

  lemma TurnsWhileSending(s: World, step: Step)
    requires Still(s, step) && step == EndCycle
    ensures s.pc == Sending
  {
    hide Inv, Shown, CalmAt, Next, Handover, FastController, CommandingMode;
  }

  /** Cycles keep deciding. */
  lemma NextHearing(e: Execution, m: nat, n: nat) returns (h: nat)
    requires Calm(e, m) && m <= n
    ensures n <= h && e.step(h).HearMode?
  {
    hide *;
    var i := NextTurn(e, m, n);
    TurnBegins(e, m, i);
    var j := NextTurn(e, m, i + 1);
    StillAt(e, m, j);
    TurnsWhileSending(e.state(j), e.step(j));
    h := HearsBetween(e, m, i + 1, j);
  }

  lemma BecomesSteady(e: Execution, m: nat) returns (k: nat)
    requires Calm(e, m)
    ensures m <= k && Steady(e.state(k)) && ServedFrom(e, k)
  {
    hide *;
    var n := BecomesServed(e, m);
    var h := NextHearing(e, m, n);
    CopiesTrueStays(e, m, n, h);
    ServedAt(e, n, h);
    StillAt(e, m, h);
    HearDecides(e.state(h), e.step(h));
    CopiesTrueStep(e.state(h), e.step(h));
    k := ObeyedInTheEnd(e, m, n, h + 1, |e.state(h + 1).pending|);
    ServedLater(e, n, k);
  }

  // --------------------------------------------------------- and some train is always urged on

  /**
   * Which commands a train needs, given what is shown: an arriving one its motor, a standing one its
   * way on, and one in the gap, which only the zone behind still shows, the motor of the zone ahead.
   */
  lemma AimServes(zones: Snapshot, z: Zone)
    ensures zones.Get(z) == Entering ==> Driven(z, Aim(zones))
    ensures Authorised(zones, z) ==> Free(z, Aim(zones)) && Driven(z.Next(), Aim(zones))
  {
  }

  lemma TrackedPhases(behind: View, here: View, ahead: View)
    requires Tracked(behind, here, ahead)
    ensures here.approaching ==> here.happened == 1
    ensures here.standing ==> here.happened == 2
    ensures here.between ==> here.happened == 3 && ahead.happened == 0
    ensures here.spanning ==> here.happened == 2 && ahead.happened == 1
  {
  }

  /** Which edges have happened where the trains are. */
  lemma HappenedOfTrain(s: World, t: nat)
    requires Inv(s) && t < |s.trains|
    ensures var p := s.trains[t];
            var here, ahead := s.blocks.Get(p.zone), s.blocks.Get(p.zone.Next());
            && On(s, p.zone, p.phase) && Recorded(here) && Recorded(ahead)
            && match p.phase
               case Approaching => here.happened == 1
               case Standing => here.happened == 2
               case Between => here.happened == 3 && ahead.happened == 0
               case Spanning => here.happened == 2 && ahead.happened == 1
  {
    var p := s.trains[t];
    Before(s, t);
    assert s.trains[t] in s.trains;
    var v, w, x := ViewOf(s, p.zone), ViewOf(s, p.zone.Next()), ViewOf(s, p.zone.Prev());
    assert Tracked(x, v, w);
    TrackedPhases(x, v, w);
    FitsHappened(v, s.blocks.Get(p.zone));
    FitsHappened(w, s.blocks.Get(p.zone.Next()));
    hide Inv, ViewOf, Ring, Recorded, Free, Fits, Tracked;
  }

  lemma ShownRead(s: World, z: Zone)
    requires Recorded(s.blocks.Get(z)) && CalmAt(s, z)
    ensures Shown(s).Get(z) == StateAfter(s.blocks.Get(z).happened)
  {
    ShownAt(s, z);
    hide On;
  }

  /** What is shown where the trains are. */
  lemma ShownOfTrain(s: World, t: nat)
    requires Inv(s) && t < |s.trains| && forall z: Zone :: CalmAt(s, z)
    ensures var p := s.trains[t];
            && On(s, p.zone, p.phase)
            && match p.phase
               case Approaching => Shown(s).Get(p.zone) == Entering
               case Standing => Shown(s).Get(p.zone) == Entered
               case Between => Authorised(Shown(s), p.zone)
               case Spanning => Shown(s).Get(p.zone.Next()) == Entering
  {
    var p := s.trains[t];
    HappenedOfTrain(s, t);
    ShownRead(s, p.zone);
    ShownRead(s, p.zone.Next());
    hide Inv, Shown, CalmAt, On, Recorded;
  }

  lemma EmptyAhead(s: World, t: nat)
    requires Inv(s) && t < |s.trains| && s.trains[t].phase == Standing && !Home(s, s.trains[t].zone.Next())
    requires forall z: Zone :: CalmAt(s, z)
    ensures Shown(s).Get(s.trains[t].zone.Next()) == Empty
  {
    var z := s.trains[t].zone;
    Before(s, t);
    BeforeAt(s, z.Next());
    assert ViewOf(s, z.Next()).Home() == Home(s, z.Next());
    assert CalmAt(s, z.Next());
    ShownAt(s, z.Next());
    hide Inv, ViewOf, Shown, AtMostOne, Noticed, StillShown, SeenThisCycle, EmptyIsTrue, ClearedIntoEmpty, NobodyComes,
         BrakeReady, Overtaken, Free, Home;
  }

  /** With at most three trains, one of them has no train in the zone ahead. */
  lemma RoomAhead(s: World) returns (t: nat)
    requires DistinctZones(s) && 1 <= |s.trains| <= 3
    ensures t < |s.trains| && forall u :: 0 <= u < |s.trains| ==> s.trains[u].zone != s.trains[t].zone.Next()
  {
    t := 0;
    if u: nat :| u < |s.trains| && s.trains[u].zone == s.trains[0].zone.Next() {
      t := u;
      if v: nat :| v < |s.trains| && s.trains[v].zone == s.trains[u].zone.Next() {
        t := v;
      }
    }
  }

  lemma SomeoneUrged(s: World) returns (t: nat)
    requires Inv(s) && Steady(s) && 1 <= |s.trains| <= 3
    requires forall z: Zone :: CalmAt(s, z)
    ensures t < |s.trains| && Urged(s, t)
  {
    assert DistinctZones(s);
    SteadyActuators(s);
    hide Inv, Aim, Shown, CalmAt, Steady, Free, Driven;
    if u: nat :| u < |s.trains| && s.trains[u].phase != Standing {
      t := u;
      ShownOfTrain(s, t);
      AimServes(Shown(s), s.trains[t].zone);
      AimServes(Shown(s), s.trains[t].zone.Next());
    } else {
      t := RoomAhead(s);
      var z := s.trains[t].zone;
      assert !Home(s, z.Next());
      ShownOfTrain(s, t);
      EmptyAhead(s, t);
      AimServes(Shown(s), z);
    }
  }

  /** Whether a train is urged on depends only on what no longer changes. */
  lemma UrgedStays(s: World, s': World, t: nat)
    requires Steady(s) && Steady(s') && s'.trains == s.trains && s'.actuators == s.actuators
    requires t < |s.trains| && Urged(s, t)
    ensures Urged(s', t)
  {
    SteadyActuators(s');
    hide Steady, Aim, Shown, Free, Driven;
    assert s.trains[t] in s.trains;
  }

  /** Once trains have come to rest for good, one of them is urged on for ever and never moves. */
  ghost predicate UrgedForever(e: Execution, k: nat, t: nat) {
    forall j: nat :: k <= j ==> t < |e.state(j).trains| && Urged(e.state(j), t) && !MovesTrain(e.step(j))
  }

  lemma RestUrges(e: Execution, m: nat) returns (k: nat, t: nat)
    requires Calm(e, m) && 1 <= |e.state(0).trains| <= 3
    ensures t < |e.state(0).trains| && UrgedForever(e, k, t)
  {
    k := BecomesSteady(e, m);
    InvAlways(e, k);
    TrainCount(e, k);
    forall z: Zone
      ensures CalmAt(e.state(k), z)
    {
      CalmAlways(e, m, k, z);
    }
    hide IsExecution, Fair, Inv, Steady, Urged, MovesTrain, CalmAt, Calm, ServedFrom;
    t := SomeoneUrged(e.state(k));
    forall j: nat | k <= j
      ensures t < |e.state(j).trains| && Urged(e.state(j), t) && !MovesTrain(e.step(j))
    {
      RestUntil(e, m, k, j);
      UrgedStays(e.state(k), e.state(j), t);
    }
  }

  lemma NobodyUrgedForever(e: Execution, k: nat, t: nat)
    requires IsExecution(e) && Fair(e) && t < |e.state(0).trains|
    ensures !UrgedForever(e, k, t)
  {
    assert RelievedAfter(e, k, t);
    hide Urged, MovesTrain;
  }

  lemma RestUntil(e: Execution, m: nat, k: nat, j: nat)
    requires Calm(e, m) && ServedFrom(e, k) && m <= k <= j && Steady(e.state(k))
    ensures Steady(e.state(j)) && e.state(j).trains == e.state(k).trains && e.state(j).actuators == e.state(k).actuators
    ensures !MovesTrain(e.step(j))
  {
    TrainsRest(e, m, k);
    TrainsRest(e, m, j);
    SteadyStays(e, m, k, j);
    SameAim(e, m, k, j);
    SteadyActuators(e.state(k));
    SteadyActuators(e.state(j));
    hide IsExecution, Fair, Steady, Aim, Shown, MovesTrain;
  }

  lemma {:induction false} SameAim(e: Execution, m: nat, k: nat, j: nat)
    requires Calm(e, m) && m <= k <= j
    ensures Shown(e.state(j)) == Shown(e.state(k))
    decreases j
  {
    hide *;
    if k < j {
      SameAim(e, m, k, j - 1);
      StillAt(e, m, j - 1);
    }
  }

  /**
   * No gridlock. Take any infinite run of one to three trains from a consistent start, in which the
   * control thread keeps finishing cycles, the firmware keeps obeying, monitors keep polling, trains
   * move when they are driven or set free, and a start is granted again and again if the Pi never
   * stops asking. Whatever went before, let the sensors work from some moment `n` on, the modes be
   * AUTOMATIC and MANUAL, and no zone be stranded at `n`. Then, however long one waits, another train
   * crosses into its next zone: the number of crossings grows without bound.
   */
  lemma NoGridlock(e: Execution, n: nat, wait: nat)
    requires IsExecution(e) && Fair(e) && WorksFrom(e, n) && 1 <= |e.state(0).trains| <= 3
    ensures exists k: nat :: wait <= k && CrossesAhead(e.state(k), e.step(k))
  {
    if !exists k: nat :: wait <= k && CrossesAhead(e.state(k), e.step(k)) {
      var late := if n < wait then wait else n;
      assert NoCrossingFrom(e, late);
      var m := Freeze(e, late);
      WorksLater(e, n, m);
      assert AtRest(e, m);
      var k := BecomesCalm(e, m);
      hide *;
      var i, t := RestUrges(e, k);
      NobodyUrgedForever(e, i, t);
    }
  }
}
