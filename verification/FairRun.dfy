/**
 * Fair executions: one, two or three trains go round and round, in AUTOMATIC or in MANUAL, so the
 * hypotheses of `Progress.NoGridlock` can all be met.
 */
module FairRun {
  import opened Coaster
  import opened BrakeZones
  import opened Interlock
  import opened InterlockRuns
  import opened ClosedLoop
  import opened BlockSafety
  import opened Progress

  // ----------------------------------------------------------------------------- who stands where

  /**
   * `k` trains one behind the other, the last of them in `z`, of which the first `r` have moved up one
   * zone. The next one to move is the foremost of the others.
   */
  datatype Lineup = Lineup(k: nat, z: Zone, r: nat)

  predicate Proper(l: Lineup) {
    1 <= l.k <= 3 && l.r < l.k
  }

  function Ahead(z: Zone, m: nat): Zone
    decreases m
  {
    if m == 0 then z else Ahead(z.Next(), m - 1)
  }

  function Places(l: Lineup): (zs: seq<Zone>)
    ensures |zs| == l.k
  {
    seq(l.k, j requires 0 <= j < l.k => Ahead(l.z, if j + l.r >= l.k then j + 1 else j))
  }

  function Mover(l: Lineup): (t: nat)
    requires Proper(l)
    ensures t < l.k
  {
    l.k - 1 - l.r
  }

  /** The zone the next train moves from. */
  function From(l: Lineup): Zone
    requires Proper(l)
  {
    Places(l)[Mover(l)]
  }

  function MovedUp(l: Lineup): Lineup {
    if l.r + 1 < l.k then l.(r := l.r + 1) else Lineup(l.k, l.z.Next(), 0)
  }

  lemma AheadFew(z: Zone)
    ensures Ahead(z, 0) == z && Ahead(z, 1) == z.Next() && Ahead(z, 2) == z.Next().Next() && Ahead(z, 3) == z.Prev()
  {
    assert Ahead(z, 3) == Ahead(z.Next(), 2) == Ahead(z.Next().Next(), 1) == Ahead(z.Next().Next().Next(), 0);
  }

  /** No two trains in one zone, and room ahead of the next to move. */
  lemma RoomToMove(l: Lineup)
    requires Proper(l)
    ensures forall i, j :: 0 <= i < j < l.k ==> Places(l)[i] != Places(l)[j]
    ensures From(l) in Places(l) && From(l).Next() !in Places(l)
  {
    AheadFew(l.z);
    RoundTheRing(l.z);
    RoundTheRing(l.z.Next());
    hide Ahead;
  }

  lemma NextPlaces(l: Lineup)
    requires Proper(l)
    ensures Proper(MovedUp(l)) && Places(MovedUp(l)) == Places(l)[Mover(l) := From(l).Next()]
  {
    AheadFew(l.z);
    AheadFew(l.z.Next());
    RoundTheRing(l.z);
    RoundTheRing(l.z.Next());
    hide Ahead;
  }

  /** What the zones show when the trains stand so. */
  function Sight(l: Lineup): Snapshot {
    PerZone(SightOf(l, Station), SightOf(l, LiftHill), SightOf(l, Ride), SightOf(l, PreStation))
  }

  function SightOf(l: Lineup, y: Zone): ZoneState {
    if y in Places(l) then Entered else Empty
  }

  function Stand(zs: seq<Zone>): (ps: seq<Position>)
    ensures |ps| == |zs| && forall j :: 0 <= j < |zs| ==> ps[j] == Position(zs[j], Standing)
  {
    seq(|zs|, j requires 0 <= j < |zs| => Position(zs[j], Standing))
  }

  // ----------------------------------------------------------------------------- the script

  /** Steps of a control cycle and one train's move to the next zone. */
  const SEGMENT := 518

  predicate Operating(mode: byte) {
    mode == AUTOMATIC || mode == MANUAL
  }

  /** The mode heard, and the start button found pressed if the cycle asks. */
  function Heeds(mode: byte): Step {
    HearMode([SEND_BUTTON_STATE, mode], [RESPOND_CAN_SEND, 1])
  }

  /**
   * A control cycle, obeyed once it has ended; the train moves on, front first; its arrival and exit
   * are read; the zone times out; it arrives.
   */
  function Script(s: World, mode: byte, l: Lineup, i: nat): Step
    requires Proper(l) && i < SEGMENT
  {
    var z, t := From(l), Mover(l);
    if i < 4 then CopyZone
    else if i == 4 then Heeds(mode)
    else if i == 5 then EndCycle
    else if i < 12 then if s.pending != [] then ObeyNext else QuietPoll(z)
    else if i == 12 then FrontFirst(t)
    else if i == 13 then ReadEvent(z.Next())
    else if i == 14 then Complete(t)
    else if i == 15 then ReadEvent(z)
    else if i < 516 then QuietPoll(z)
    else if i == 516 then Arrive(t)
    else ReadEvent(z.Next())
  }

  // --------------------------------------------------------------------- what it goes through

  predicate Unnoted(b: Block) {
    !b.seen && Undecided(b)
  }

  predicate Idle(b: Block) {
    b.monitor.internal == Empty && b.queue == [] && b.happened == b.read == 0 && Unnoted(b)
  }

  /** A block with nothing special in its bookkeeping but the counts. */
  predicate Shows(b: Block, state: ZoneState, fallLast: bool, queue: seq<LineEvent>, happened: nat, read: nat) {
    && b.monitor.internal == state && b.monitor.fallLast == fallLast && b.queue == queue
    && b.happened == happened && b.read == read
  }

  function PcAt(i: nat): Pc {
    if i == 0 then CopyLiftHill else if i == 1 then CopyRide else if i == 2 then CopyPreStation
    else if i == 3 then CopyStation else if i == 4 then AskMode else if i == 5 then Sending else CopyLiftHill
  }

  /** A train that stands through the control cycle. */
  predicate Waits(b: Block, pending: seq<Message>, copied: bool, i: nat) {
    && Shows(b, Entered, false, [], 2, 2) && b.seen == (i <= 5 && copied)
    && (if i < 5 then b.due == 0 else b.due > 0 || b.acted) && b.due <= |pending|
  }

  /** During the control cycle and until it is obeyed. */
  predicate InCycle(s: World, l: Lineup, i: nat) {
    && Proper(l) && i <= 12 && s.trains == Stand(Places(l)) && s.pc == PcAt(i)
    && (forall y: Zone :: if y in Places(l) then Waits(s.blocks.Get(y), s.pending, Copied(s.pc, y), i)
                          else Idle(s.blocks.Get(y)))
    && (forall y: Zone :: Copied(s.pc, y) ==> s.blocks.Get(y).copy == s.blocks.Get(y).monitor.internal)
    && (if i < 5 then s.pending == []
        else |s.pending| <= (if i == 5 then 6 else 12 - i) && Free(From(l), Settled(s)))
  }

  /** A train that stands by while another moves. */
  predicate Rests(b: Block) {
    Shows(b, Entered, false, [], 2, 2) && !b.seen && b.due == 0
  }

  /** The zone ahead, from the front of the train on its first sensor until it stands there. */
  predicate Arriving(c: Block, i: nat) {
    Unnoted(c) &&
    if i == 13 then c.monitor.internal == Empty && c.queue == [RiseFirst] && c.happened == 1 && c.read == 0
    else if i <= 516 then Shows(c, Entering, false, [], 1, 1)
    else if i == 517 then Shows(c, Entering, false, [RiseSecond], 2, 1)
    else Shows(c, Entered, false, [], 2, 2)
  }

  /** The zone left. */
  predicate Emptying(b: Block, i: nat) {
    Unnoted(b) &&
    if i <= 14 then Shows(b, Entered, false, [], 2, 2)
    else if i == 15 then Shows(b, Entered, false, [FallSecond], 3, 2)
    else if i < 516 then Shows(b, Entered, true, [], 3, 3) && b.monitor.timeouts == i - 16
    else Idle(b)
  }

  function Whereabouts(z: Zone, i: nat): Position {
    if i <= 14 then Position(z, Spanning)
    else if i <= 516 then Position(z.Next(), Approaching) else Position(z.Next(), Standing)
  }

  /** Afterwards: one train on its way to the next zone. */
  predicate OnItsWay(s: World, l: Lineup, i: nat) {
    && Proper(l) && 13 <= i <= SEGMENT && s.pc == CopyLiftHill && s.pending == []
    && s.trains == Stand(Places(l))[Mover(l) := Whereabouts(From(l), i)]
    && forall y: Zone ::
         if y == From(l) then Emptying(s.blocks.Get(y), i)
         else if y == From(l).Next() then Arriving(s.blocks.Get(y), i)
         else if y in Places(l) then Rests(s.blocks.Get(y)) else Idle(s.blocks.Get(y))
  }

  predicate InLap(s: World, l: Lineup, i: nat) {
    if i <= 12 then InCycle(s, l, i) else OnItsWay(s, l, i)
  }

  /** The end of one segment is the beginning of the next. */
  lemma SegmentsJoin(s: World, l: Lineup)
    requires InLap(s, l, SEGMENT)
    ensures InLap(s, MovedUp(l), 0)
  {
    var m := MovedUp(l);
    NextPlaces(l);
    RoomToMove(l);
    assert s.trains == Stand(Places(m));
    forall y: Zone
      ensures y in Places(m) <==> y == From(l).Next() || (y in Places(l) && y != From(l))
    {
      OthersStay(Places(l), Mover(l), From(l).Next(), y);
    }
    hide Places, MovedUp, Settled;
  }

  lemma OthersStay(zs: seq<Zone>, t: nat, z: Zone, y: Zone)
    requires t < |zs| && forall i, j :: 0 <= i < j < |zs| ==> zs[i] != zs[j]
    ensures y in zs[t := z] <==> y == z || (y in zs && y != zs[t])
  {
    var us := zs[t := z];
    assert us[t] == z;
    if y in zs && y != zs[t] {
      var j :| 0 <= j < |zs| && zs[j] == y;
      assert us[j] == y;
    }
  }

  // -------------------------------------------------------------------- the cycle, step by step

  lemma StandingOn(s: World, l: Lineup, y: Zone)
    requires s.trains == Stand(Places(l))
    ensures On(s, y, Standing) <==> y in Places(l)
  {
    if y in Places(l) {
      var j :| 0 <= j < |Places(l)| && Places(l)[j] == y;
      assert s.trains[j] == Position(y, Standing);
    }
    hide Places;
  }

  lemma CopyStep(s: World, l: Lineup, i: nat)
    requires InCycle(s, l, i) && i < 4
    ensures Allowed(s, CopyZone) && InCycle(Next(s, CopyZone), l, i + 1)
  {
    var y := CopyTarget(s.pc);
    StandingOn(s, l, y);
    hide On, Settled, Places;
    PutGet(s.blocks, y, Next(s, CopyZone).blocks.Get(y));
  }

  lemma AllCopied(s: World, l: Lineup)
    requires InCycle(s, l, 4)
    ensures Copies(s) == Sight(l)
  {
    hide Places;
    forall y: Zone
      ensures Copies(s).Get(y) == Sight(l).Get(y)
    {
      ShownAt(s, y);
      SightGet(l, y);
    }
    SameSnapshot(Copies(s), Sight(l));
  }

  lemma SightGet(l: Lineup, y: Zone)
    ensures Sight(l).Get(y) == if y in Places(l) then Entered else Empty
  {
    hide Places;
  }

  lemma FewMessages(mode: byte, zones: Snapshot, releaseGo: byte, reply: byte)
    requires Operating(mode)
    ensures 1 <= |Decide(mode, zones, releaseGo, reply).sent| <= 5
  {
  }

  /** With every request granted, a train with room ahead is set free. */
  lemma GrantedFrees(mode: byte, zones: Snapshot, releaseGo: byte, a: Actuators, z: Zone)
    requires Operating(mode) && Authorised(zones, z)
    ensures Free(z, Effect(mode, zones, releaseGo, 1, a))
  {
  }

  lemma Answers(s: World, mode: byte)
    requires Operating(mode)
    ensures ModeHeard(s, Heeds(mode)) == mode && StartFromReply(1, [RESPOND_CAN_SEND, 1]) == 1
  {
    assert ModeFromReply([SEND_BUTTON_STATE, mode]) == mode;
  }

  lemma RoomSeen(l: Lineup)
    requires Proper(l)
    ensures Authorised(Sight(l), From(l))
  {
    hide Places, From, Sight;
    RoomToMove(l);
    SightGet(l, From(l));
    SightGet(l, From(l).Next());
  }

  /** What a cycle that hears `mode` sends. */
  lemma Commanded(m: Memory, c: Cycle, mode: byte, a: Actuators, z: Zone)
    requires Operating(mode) && ModeIn(m, c) == mode && StartFromReply(1, c.startReply) == 1 && Authorised(c.zones, z)
    ensures 2 <= |SentIn(m, c)| <= 6 && Free(z, ObeyAll(SentIn(m, c), a))
  {
    FewMessages(mode, c.zones, m.releaseGo, 1);
    CycleEffectWithPoll(m, c, a);
    CycleEffect(mode, c.zones, m.releaseGo, 1, a);
    GrantedFrees(mode, c.zones, m.releaseGo, a, z);
    hide ModeIn, StartFromReply, Free, Effect, Decide, ObeyAll;
  }

  lemma HearSends(s: World, mode: byte, l: Lineup)
    requires InCycle(s, l, 4) && Operating(mode)
    ensures Allowed(s, Heeds(mode))
    ensures var s', c := Next(s, Heeds(mode)), CycleOf(s, [SEND_BUTTON_STATE, mode], [RESPOND_CAN_SEND, 1]);
            && s'.pending == SentIn(s.memory, c) && s'.actuators == s.actuators
            && c.zones == Copies(s) && ModeIn(s.memory, c) == mode && StartFromReply(1, c.startReply) == 1
  {
    Answers(s, mode);
    hide SentIn, AfterCycle, ModeIn, Places, From, Settled, Free, Stand, Copies, StartFromReply, Waits, Idle;
    var c := CycleOf(s, [SEND_BUTTON_STATE, mode], [RESPOND_CAN_SEND, 1]);
    assert [] + SentIn(s.memory, c) == SentIn(s.memory, c);
  }

  lemma HearSettled(s: World, mode: byte, l: Lineup)
    requires InCycle(s, l, 4) && Operating(mode)
    ensures Allowed(s, Heeds(mode))
    ensures var s' := Next(s, Heeds(mode)); 1 <= |s'.pending| <= 6 && Free(From(l), Settled(s'))
  {
    assert Proper(l);
    hide InCycle, Operating, Allowed, Next, Free, From, SentIn, ModeIn, StartFromReply, Authorised, Sight, Copies,
         CycleOf;
    HearSends(s, mode, l);
    AllCopied(s, l);
    RoomSeen(l);
    Commanded(s.memory, CycleOf(s, [SEND_BUTTON_STATE, mode], [RESPOND_CAN_SEND, 1]), mode, s.actuators, From(l));
  }

  lemma HearFrame(s: World, mode: byte)
    requires s.pc == AskMode
    ensures var s' := Next(s, Heeds(mode));
            && s'.trains == s.trains && s'.pc == Sending
            && forall y: Zone :: s'.blocks.Get(y) == DecidedBlock(s.blocks.Get(y), |s'.pending|)
  {
    hide SentIn, AfterCycle;
  }

  lemma WaitsOn(b: Block, pending: seq<Message>)
    requires Waits(b, [], true, 4) && pending != []
    ensures Waits(DecidedBlock(b, |pending|), pending, true, 5)
  {
  }

  lemma HearStep(s: World, mode: byte, l: Lineup)
    requires InCycle(s, l, 4) && Operating(mode)
    ensures Allowed(s, Heeds(mode)) && InCycle(Next(s, Heeds(mode)), l, 5)
  {
    var s' := Next(s, Heeds(mode));
    HearSettled(s, mode, l);
    HearFrame(s, mode);
    assert s.pending == [];
    hide Settled, Places, Allowed, From, Free, Next, Waits;
    forall y: Zone
      ensures if y in Places(l) then Waits(s'.blocks.Get(y), s'.pending, Copied(s'.pc, y), 5)
              else Idle(s'.blocks.Get(y))
    {
      if y in Places(l) {
        WaitsOn(s.blocks.Get(y), s'.pending);
      }
    }
  }

  lemma EndStep(s: World, l: Lineup)
    requires InCycle(s, l, 5)
    ensures Allowed(s, EndCycle) && InCycle(Next(s, EndCycle), l, 6)
  {
    LineFrame(s, EndCycle);
    hide Obey, Places, Settled, From, Free;
  }

  lemma ObeyStep(s: World, l: Lineup, i: nat)
    requires InCycle(s, l, i) && 6 <= i < 12 && s.pending != []
    ensures Allowed(s, ObeyNext) && InCycle(Next(s, ObeyNext), l, i + 1)
  {
    var s' := Next(s, ObeyNext);
    assert Settled(s') == Settled(s);
    assert forall y: Zone :: s'.blocks.Get(y) == ObeyedBlock(s.blocks.Get(y));
    hide Obey, Places, Settled, From, Free, Waits, ObeyedBlock, Idle, AllObeyed;
    forall y: Zone
      ensures if y in Places(l) then Waits(s'.blocks.Get(y), s'.pending, Copied(s'.pc, y), i + 1)
              else Idle(s'.blocks.Get(y))
    {
      if y in Places(l) {
        WaitsThrough(s.blocks.Get(y), s.pending, Copied(s.pc, y), i);
      } else {
        IdleThrough(s.blocks.Get(y));
      }
    }
  }

  lemma WaitsThrough(b: Block, pending: seq<Message>, copied: bool, i: nat)
    requires Waits(b, pending, copied, i) && pending != [] && 6 <= i
    ensures Waits(ObeyedBlock(b), pending[1..], copied, i + 1)
  {
  }

  lemma IdleThrough(b: Block)
    requires Idle(b)
    ensures Idle(ObeyedBlock(b))
  {
  }

  /** All obeyed early, a quiet poll of the zone where the train stands. */
  lemma SpareStep(s: World, l: Lineup, i: nat)
    requires InCycle(s, l, i) && 6 <= i < 12 && s.pending == []
    ensures Allowed(s, QuietPoll(From(l))) && InCycle(Next(s, QuietPoll(From(l))), l, i + 1)
  {
    var z := From(l);
    RoomToMove(l);
    LineFrame(s, QuietPoll(z));
    hide Obey, Places, Settled, From, Free;
    PutGet(s.blocks, z, AfterQuiet(s.blocks.Get(z)));
    hide Put;
  }

  // ------------------------------------------------------------------- the move, step by step

  lemma AloneHere(l: Lineup, t: nat)
    requires Proper(l) && t == Mover(l)
    ensures t < |Stand(Places(l))| && Stand(Places(l))[t] == Position(From(l), Standing)
  {
  }

  lemma LeaveStep(s: World, l: Lineup)
    requires InCycle(s, l, 12)
    ensures Allowed(s, FrontFirst(Mover(l))) && OnItsWay(Next(s, FrontFirst(Mover(l))), l, 13)
  {
    var z, t := From(l), Mover(l);
    RoomToMove(l);
    AloneHere(l, t);
    assert Settled(s) == s.actuators;
    hide Free, Places, Settled, Mover, From;
    RoundTheRing(z);
    var here, ahead := Unseen(s.blocks.Get(z)), Emit(s.blocks.Get(z.Next()), RiseFirst);
    assert [] + [RiseFirst] == [RiseFirst];
    forall y: Zone
      ensures Shifted(s, t, Position(z, Spanning), here, ahead).blocks.Get(y)
              == if y == z.Next() then ahead else if y == z then here else s.blocks.Get(y)
    {
      ShiftedBlocks(s, t, Position(z, Spanning), here, ahead, y);
    }
    hide Put;
  }

  lemma ReadOne(b: Block, e: LineEvent)
    requires b.queue == [e]
    ensures AfterRead(b) == b.(monitor := StepLine(b.monitor.(timeouts := 0), e), queue := [],
                               read := if e == FallFirst then b.read else b.read + 1)
  {
    OneEvent(b.monitor, e);
    assert [e][1..] == [];
    hide PollStep, StepLine;
  }

  lemma ArrivalReadStep(s: World, l: Lineup)
    requires OnItsWay(s, l, 13)
    ensures Allowed(s, ReadEvent(From(l).Next())) && OnItsWay(Next(s, ReadEvent(From(l).Next())), l, 14)
  {
    var z := From(l);
    RoundTheRing(z);
    ReadOne(s.blocks.Get(z.Next()), RiseFirst);
    PutGet(s.blocks, z.Next(), AfterRead(s.blocks.Get(z.Next())));
    hide AfterRead, Put, Places, From, Mover;
  }

  lemma CompleteStep(s: World, l: Lineup)
    requires OnItsWay(s, l, 14)
    ensures Allowed(s, Complete(Mover(l))) && OnItsWay(Next(s, Complete(Mover(l))), l, 15)
  {
    var z, t := From(l), Mover(l);
    RoundTheRing(z);
    AloneHere(l, t);
    var to := Position(z.Next(), Approaching);
    assert s.trains[t] == Position(z, Spanning);
    var here, ahead := Emit(s.blocks.Get(z), FallSecond), s.blocks.Get(z.Next());
    assert [] + [FallSecond] == [FallSecond];
    hide Places, From, Mover;
    forall y: Zone
      ensures Shifted(s, t, to, here, ahead).blocks.Get(y)
              == if y == z.Next() then ahead else if y == z then here else s.blocks.Get(y)
    {
      ShiftedBlocks(s, t, to, here, ahead, y);
    }
    hide Put;
  }

  lemma ExitReadStep(s: World, l: Lineup)
    requires OnItsWay(s, l, 15)
    ensures Allowed(s, ReadEvent(From(l))) && OnItsWay(Next(s, ReadEvent(From(l))), l, 16)
  {
    var z := From(l);
    RoundTheRing(z);
    ReadOne(s.blocks.Get(z), FallSecond);
    PutGet(s.blocks, z, AfterRead(s.blocks.Get(z)));
    hide AfterRead, Put, Places, From, Mover;
  }

  lemma NobodyIn(s: World, l: Lineup, i: nat)
    requires OnItsWay(s, l, i) && 15 <= i
    ensures !On(s, From(l), Between)
  {
    hide Places;
  }

  lemma QuietOnTheWay(s: World, l: Lineup, i: nat)
    requires OnItsWay(s, l, i) && 16 <= i < 516
    ensures Allowed(s, QuietPoll(From(l))) && OnItsWay(Next(s, QuietPoll(From(l))), l, i + 1)
  {
    var z := From(l);
    NobodyIn(s, l, i);
    RoundTheRing(z);
    PutGet(s.blocks, z, AfterQuiet(s.blocks.Get(z)));
    hide Put, Places, From, Mover, On;
  }

  lemma ArriveStep(s: World, l: Lineup)
    requires OnItsWay(s, l, 516)
    ensures Allowed(s, Arrive(Mover(l))) && OnItsWay(Next(s, Arrive(Mover(l))), l, 517)
  {
    var z, t := From(l), Mover(l);
    RoundTheRing(z);
    RoundTheRing(z.Next());
    AloneHere(l, t);
    var y0 := z.Next();
    var to := Position(y0, Standing);
    assert s.trains[t] == Position(y0, Approaching);
    var here, ahead := Emit(Unseen(s.blocks.Get(y0)), RiseSecond), s.blocks.Get(y0.Next());
    assert [] + [RiseSecond] == [RiseSecond];
    hide Places, From, Mover;
    forall y: Zone
      ensures Shifted(s, t, to, here, ahead).blocks.Get(y)
              == if y == y0.Next() then ahead else if y == y0 then here else s.blocks.Get(y)
    {
      ShiftedBlocks(s, t, to, here, ahead, y);
    }
    hide Put;
  }

  lemma StandingReadStep(s: World, l: Lineup)
    requires OnItsWay(s, l, 517)
    ensures Allowed(s, ReadEvent(From(l).Next())) && OnItsWay(Next(s, ReadEvent(From(l).Next())), l, 518)
  {
    var z := From(l);
    RoundTheRing(z);
    ReadOne(s.blocks.Get(z.Next()), RiseSecond);
    PutGet(s.blocks, z.Next(), AfterRead(s.blocks.Get(z.Next())));
    hide AfterRead, Put, Places, From, Mover;
  }

  /** Every step of the script is allowed where it comes, and leads on. */
  lemma ScriptStep(s: World, mode: byte, l: Lineup, i: nat)
    requires i < SEGMENT && Proper(l) && InLap(s, l, i) && Operating(mode)
    ensures Allowed(s, Script(s, mode, l, i)) && InLap(Next(s, Script(s, mode, l, i)), l, i + 1)
  {
    hide InCycle, OnItsWay, Next, Allowed, Heeds, From, Mover, Operating;
    if i < 4 {
      CopyStep(s, l, i);
    } else if i == 4 {
      HearStep(s, mode, l);
    } else if i == 5 {
      EndStep(s, l);
    } else if i < 12 {
      if s.pending != [] {
        ObeyStep(s, l, i);
      } else {
        SpareStep(s, l, i);
      }
    } else if i == 12 {
      LeaveStep(s, l);
    } else if i == 13 {
      ArrivalReadStep(s, l);
    } else if i == 14 {
      CompleteStep(s, l);
    } else if i == 15 {
      ExitReadStep(s, l);
    } else if i < 516 {
      QuietOnTheWay(s, l, i);
    } else if i == 516 {
      ArriveStep(s, l);
    } else {
      StandingReadStep(s, l);
    }
  }

  // ----------------------------------------------------------------------------- round and round

  /** How many trains, and the mode the firmware is kept in. */
  datatype Plan = Plan(k: nat, mode: byte)

  predicate Sensible(p: Plan) {
    1 <= p.k <= 3 && Operating(p.mode)
  }

  /** The trains as the segment `q` of the run finds them. */
  function LineupAt(k: nat, q: nat): (l: Lineup)
    requires 1 <= k <= 3
    ensures Proper(l) && l.k == k
  {
    if q == 0 then Lineup(k, Station, 0) else MovedUp(LineupAt(k, q - 1))
  }

  function StartBlock(k: nat, y: Zone): Block {
    if y in Places(Lineup(k, Station, 0)) then Block(Monitor(Entered, 0, false), [], Empty, 2, 2, false, 0, false)
    else Block(POWERED_UP, [], Empty, 0, 0, false, 0, false)
  }

  function StartOf(k: nat): World {
    World(Stand(Places(Lineup(k, Station, 0))),
          PerZone(StartBlock(k, Station), StartBlock(k, LiftHill), StartBlock(k, Ride), StartBlock(k, PreStation)),
          PerZone(0, 0, RIDE_STOP, PRESTATION_STOP), BOOT, CopyLiftHill, [])
  }

  function Segment(n: nat): nat {
    n / SEGMENT
  }

  function Place(n: nat): (i: nat)
    ensures i < SEGMENT
  {
    n % SEGMENT
  }

  function StateOf(p: Plan, n: nat): World
    requires Sensible(p)
    decreases n, 0
  {
    if n == 0 then StartOf(p.k)
    else if Enabled(StateOf(p, n - 1), StepOf(p, n - 1)) then Next(StateOf(p, n - 1), StepOf(p, n - 1))
    else StateOf(p, n - 1)
  }

  function StepOf(p: Plan, n: nat): Step
    requires Sensible(p)
    decreases n, 1
  {
    Script(StateOf(p, n), p.mode, LineupAt(p.k, Segment(n)), Place(n))
  }

  lemma Count(n: nat)
    ensures if Place(n) + 1 < SEGMENT then Segment(n + 1) == Segment(n) && Place(n + 1) == Place(n) + 1
            else Place(n) + 1 == SEGMENT && Segment(n + 1) == Segment(n) + 1 && Place(n + 1) == 0
  {
  }

  lemma StartsOnScript(k: nat)
    requires 1 <= k <= 3
    ensures InLap(StartOf(k), LineupAt(k, 0), 0) && Segment(0) == 0 && Place(0) == 0
  {
    var s, l := StartOf(k), Lineup(k, Station, 0);
    assert LineupAt(k, 0) == l && Proper(l) && s.trains == Stand(Places(l)) && s.pending == [] && s.pc == PcAt(0);
    hide Places, LineupAt, Waits, Idle, Stand, StartBlock, Free, Settled;
    forall y: Zone
      ensures if y in Places(l) then Waits(s.blocks.Get(y), [], false, 0) else Idle(s.blocks.Get(y))
    {
      assert s.blocks.Get(y) == StartBlock(k, y);
      StartBlockFits(k, y);
    }
  }

  lemma StartBlockFits(k: nat, y: Zone)
    requires 1 <= k <= 3
    ensures if y in Places(Lineup(k, Station, 0)) then Waits(StartBlock(k, y), [], false, 0) else Idle(StartBlock(k, y))
  {
    hide Places;
  }

  lemma StateStep(p: Plan, n: nat)
    requires Sensible(p) && Allowed(StateOf(p, n), StepOf(p, n))
    ensures StateOf(p, n + 1) == Next(StateOf(p, n), StepOf(p, n))
  {
    hide Next, Enabled, Script, LineupAt;
  }

  lemma StepOfScript(p: Plan, n: nat)
    requires Sensible(p)
    ensures StepOf(p, n) == Script(StateOf(p, n), p.mode, LineupAt(p.k, Segment(n)), Place(n))
  {
    hide Script, LineupAt, StateOf;
  }

  lemma OneSegmentOn(k: nat, q: nat)
    requires 1 <= k <= 3
    ensures LineupAt(k, q + 1) == MovedUp(LineupAt(k, q))
  {
  }

  lemma OneStepOn(p: Plan, n: nat)
    requires Sensible(p) && InLap(StateOf(p, n), LineupAt(p.k, Segment(n)), Place(n))
    ensures Allowed(StateOf(p, n), StepOf(p, n))
    ensures InLap(StateOf(p, n + 1), LineupAt(p.k, Segment(n)), Place(n) + 1)
  {
    assert Operating(p.mode);
    hide *;
    StepOfScript(p, n);
    ScriptStep(StateOf(p, n), p.mode, LineupAt(p.k, Segment(n)), Place(n));
    StateStep(p, n);
  }

  lemma NextPlace(s: World, k: nat, n: nat)
    requires 1 <= k <= 3 && InLap(s, LineupAt(k, Segment(n)), Place(n) + 1)
    ensures InLap(s, LineupAt(k, Segment(n + 1)), Place(n + 1))
  {
    hide *;
    Count(n);
    if Place(n) + 1 == SEGMENT {
      OneSegmentOn(k, Segment(n));
      SegmentsJoin(s, LineupAt(k, Segment(n)));
    }
  }

  lemma Follows(p: Plan, n: nat)
    requires Sensible(p) && InLap(StateOf(p, n), LineupAt(p.k, Segment(n)), Place(n))
    ensures Allowed(StateOf(p, n), StepOf(p, n))
    ensures InLap(StateOf(p, n + 1), LineupAt(p.k, Segment(n + 1)), Place(n + 1))
  {
    assert 1 <= p.k <= 3;
    hide *;
    OneStepOn(p, n);
    NextPlace(StateOf(p, n + 1), p.k, n);
  }

  lemma AtTheStart(p: Plan)
    requires Sensible(p)
    ensures 1 <= p.k <= 3 && StateOf(p, 0) == StartOf(p.k)
  {
    hide StartOf, StepOf, Next, Enabled;
  }

  lemma {:induction false} OnScript(p: Plan, n: nat)
    requires Sensible(p)
    ensures InLap(StateOf(p, n), LineupAt(p.k, Segment(n)), Place(n))
  {
    hide *;
    if n == 0 {
      AtTheStart(p);
      StartsOnScript(p.k);
    } else {
      OnScript(p, n - 1);
      Follows(p, n - 1);
    }
  }

  // ------------------------------------------------------------------------------- and it is fair

  ghost function RoundAndRound(p: Plan): Execution
    requires Sensible(p)
  {
    Execution((n: nat) => StateOf(p, n), (n: nat) => StepOf(p, n))
  }

  lemma SameRun(p: Plan, i: nat)
    requires Sensible(p)
    ensures RoundAndRound(p).state(i) == StateOf(p, i) && RoundAndRound(p).step(i) == StepOf(p, i)
  {
    hide StateOf, StepOf;
  }

  lemma StartIsConsistent(k: nat)
    requires 1 <= k <= 3
    ensures ConsistentStart(StartOf(k))
  {
    var s, l := StartOf(k), Lineup(k, Station, 0);
    RoomToMove(l);
    hide Places;
    forall z: Zone
      ensures if On(s, z, Approaching) then FreshBlock(s.blocks.Get(z), Entering, 1)
              else if On(s, z, Standing) then FreshBlock(s.blocks.Get(z), Entered, 2)
              else FreshBlock(s.blocks.Get(z), Empty, 0)
    {
      StandingOn(s, l, z);
    }
  }

  lemma StepFacts(e: Execution, i: nat)
    requires Allowed(e.state(i), e.step(i)) && e.state(i + 1) == Next(e.state(i), e.step(i))
    ensures StepAt(e, i)
  {
  }

  lemma IsAnExecution(p: Plan)
    requires Sensible(p)
    ensures IsExecution(RoundAndRound(p)) && |RoundAndRound(p).state(0).trains| == p.k
  {
    var e := RoundAndRound(p);
    StartIsConsistent(p.k);
    SameRun(p, 0);
    assert StateOf(p, 0) == StartOf(p.k);
    hide ConsistentStart, RoundAndRound, StateOf, StepOf;
    forall i: nat
      ensures StepAt(e, i)
    {
      hide *;
      OnScript(p, i);
      Follows(p, i);
      StateStep(p, i);
      SameRun(p, i);
      SameRun(p, i + 1);
      StepFacts(e, i);
    }
  }

  lemma DivMod(q: nat, r: nat)
    requires r < SEGMENT
    ensures Segment(q * SEGMENT + r) == q && Place(q * SEGMENT + r) == r
  {
  }

  /** Place `i` of segment `q`. */
  lemma PlaceIn(n: nat, q: nat, i: nat) returns (j: nat)
    requires Segment(n) < q && i < SEGMENT
    ensures n <= j && Segment(j) == q && Place(j) == i
  {
    j := q * SEGMENT + i;
    DivMod(q, i);
  }

  /** Some segment from `q` on begins a new round. */
  lemma {:induction false} RoundBegins(k: nat, q: nat) returns (b: nat)
    requires 1 <= k <= 3
    ensures q <= b && LineupAt(k, b).r == 0
    decreases k - LineupAt(k, q).r
  {
    if LineupAt(k, q).r == 0 {
      b := q;
    } else {
      OneSegmentOn(k, q);
      if LineupAt(k, q + 1).r == 0 {
        b := q + 1;
      } else {
        b := RoundBegins(k, q + 1);
      }
    }
  }

  lemma RoundGoesOn(k: nat, b: nat)
    requires 1 <= k <= 3 && LineupAt(k, b).r == 0
    ensures forall r: nat :: r < k ==> LineupAt(k, b + r) == Lineup(k, LineupAt(k, b).z, r)
    ensures LineupAt(k, b + k) == Lineup(k, LineupAt(k, b).z.Next(), 0)
  {
    hide LineupAt;
    var z := LineupAt(k, b).z;
    assert LineupAt(k, b) == Lineup(k, z, 0);
    OneSegmentOn(k, b);
    if k > 1 {
      assert LineupAt(k, b + 1) == Lineup(k, z, 1);
      OneSegmentOn(k, b + 1);
    }
    if k > 2 {
      assert LineupAt(k, b + 2) == Lineup(k, z, 2);
      OneSegmentOn(k, b + 2);
    }
    forall r: nat | r < k
      ensures LineupAt(k, b + r) == Lineup(k, z, r)
    {
      assert r == 0 || r == 1 || r == 2;
    }
  }

  /** Four rounds bring the trains to where they were, by way of every zone. */
  lemma FourRounds(k: nat, b: nat)
    requires 1 <= k <= 3 && LineupAt(k, b).r == 0
    ensures var z := LineupAt(k, b).z;
            && LineupAt(k, b + k) == Lineup(k, z.Next(), 0)
            && LineupAt(k, b + 2 * k) == Lineup(k, z.Next().Next(), 0)
            && LineupAt(k, b + 3 * k) == Lineup(k, z.Next().Next().Next(), 0)
  {
    hide LineupAt;
    RoundGoesOn(k, b);
    RoundGoesOn(k, b + k);
    RoundGoesOn(k, b + 2 * k);
    assert b + k + k == b + 2 * k && b + 2 * k + k == b + 3 * k;
  }

  /** Place `i` of a later segment in which train `t` moves. */
  lemma TrainComes(p: Plan, n: nat, t: nat, i: nat) returns (j: nat)
    requires Sensible(p) && t < p.k && i < SEGMENT
    ensures n <= j && Place(j) == i && Mover(LineupAt(p.k, Segment(j))) == t
  {
    hide LineupAt, Segment, Place;
    var b := RoundBegins(p.k, Segment(n) + 1);
    RoundGoesOn(p.k, b);
    var r: nat := p.k - 1 - t;
    assert LineupAt(p.k, b + r) == Lineup(p.k, LineupAt(p.k, b).z, r);
    j := PlaceIn(n, b + r, i);
  }

  lemma MovesFrom(k: nat, z: Zone)
    requires 1 <= k <= 3
    ensures From(Lineup(k, z, 0)) == Ahead(z, k - 1)
  {
  }

  /** Place `i` of a later segment in which the train in `y` moves. */
  lemma ZoneComes(p: Plan, n: nat, y: Zone, i: nat) returns (j: nat)
    requires Sensible(p) && i < SEGMENT
    ensures n <= j && Place(j) == i && From(LineupAt(p.k, Segment(j))) == y
  {
    hide From, LineupAt, Segment, Place;
    var b := RoundBegins(p.k, Segment(n) + 1);
    var q := ZoneRound(p.k, b, LineupAt(p.k, b).z, y);
    j := PlaceIn(n, q, i);
  }

  lemma ZoneRound(k: nat, b: nat, z: Zone, y: Zone) returns (q: nat)
    requires 1 <= k <= 3 && LineupAt(k, b) == Lineup(k, z, 0)
    ensures b <= q && From(LineupAt(k, q)) == y
  {
    hide LineupAt, Ahead, From;
    FourRounds(k, b);
    MovesFrom(k, z);
    MovesFrom(k, z.Next());
    MovesFrom(k, z.Next().Next());
    MovesFrom(k, z.Next().Next().Next());
    AheadRound(z, k - 1, y);
    q := if Ahead(z, k - 1) == y then b else if Ahead(z.Next(), k - 1) == y then b + k
         else if Ahead(z.Next().Next(), k - 1) == y then b + 2 * k else b + 3 * k;
  }

  lemma AheadRound(z: Zone, m: nat, y: Zone)
    requires m <= 2
    ensures Ahead(z, m) == y || Ahead(z.Next(), m) == y || Ahead(z.Next().Next(), m) == y
            || Ahead(z.Next().Next().Next(), m) == y
  {
    AheadFew(z);
    AheadFew(z.Next());
    AheadFew(z.Next().Next());
    AheadFew(z.Next().Next().Next());
    hide Ahead;
  }

  lemma ScriptIsSound(s: World, mode: byte, l: Lineup, i: nat)
    requires i < SEGMENT && Proper(l) && InLap(s, l, i) && Operating(mode)
    ensures Sound(s, Script(s, mode, l, i))
    ensures Script(s, mode, l, i).HearMode? ==> Script(s, mode, l, i) == Heeds(mode)
  {
    RoomToMove(l);
    hide Places, From, Mover, Settled, Free;
  }

  lemma SoundThroughout(p: Plan)
    requires Sensible(p)
    ensures SoundFrom(RoundAndRound(p), 0)
  {
    var e := RoundAndRound(p);
    forall i: nat
      ensures Sound(e.state(i), e.step(i))
    {
      hide RoundAndRound, StateOf, StepOf, Sound, InLap, Script, LineupAt;
      OnScript(p, i);
      StepOfScript(p, i);
      SameRun(p, i);
      ScriptIsSound(StateOf(p, i), p.mode, LineupAt(p.k, Segment(i)), Place(i));
    }
    hide RoundAndRound, Sound;
  }

  lemma HeedsThroughout(p: Plan, i: nat)
    requires Sensible(p)
    ensures var e := RoundAndRound(p); e.step(i).HearMode? ==> e.step(i) == Heeds(p.mode)
  {
    hide RoundAndRound, StateOf, StepOf, Sound, InLap, Script, LineupAt;
    OnScript(p, i);
    StepOfScript(p, i);
    SameRun(p, i);
    ScriptIsSound(StateOf(p, i), p.mode, LineupAt(p.k, Segment(i)), Place(i));
  }

  /** The mode is the one kept throughout, and every request is granted. */
  lemma RunsAndGrants(p: Plan)
    requires Sensible(p)
    ensures RunningFrom(RoundAndRound(p), 0) && ButtonPressed(RoundAndRound(p))
  {
    var e := RoundAndRound(p);
    forall i: nat | e.step(i).HearMode?
      ensures Running(ModeHeard(e.state(i), e.step(i)))
    {
      HeedsThroughout(p, i);
      Answers(e.state(i), p.mode);
      hide RoundAndRound, ModeHeard, StartFromReply;
    }
    forall i: nat | AsksForStart(e.state(i), e.step(i))
      ensures GetsStart(e.state(i), e.step(i))
    {
      HeedsThroughout(p, i);
      Answers(e.state(i), p.mode);
      hide RoundAndRound, ModeHeard, StartFromReply;
    }
    hide RoundAndRound, ModeHeard, AsksForStart, GetsStart, Running;
    forall i: nat | AsksAfter(e, i)
      ensures PressedAfter(e, i)
    {
    }
  }

  lemma KeepsTurning(p: Plan, i: nat)
    requires Sensible(p)
    ensures TurnsAfter(RoundAndRound(p), i)
  {
    var turn := TrainComes(p, i, 0, 5);
    SameRun(p, turn);
    StepOfScript(p, turn);
    assert RoundAndRound(p).step(turn) == EndCycle by {
      hide RoundAndRound, StateOf, StepOf, LineupAt;
    }
    hide RoundAndRound;
  }

  lemma NothingLeft(s: World, l: Lineup)
    requires InLap(s, l, 12)
    ensures s.pending == []
  {
    hide Places, From, Settled, Free, Waits, Idle;
  }

  lemma KeepsObeying(p: Plan, i: nat)
    requires Sensible(p)
    ensures ObeysAfter(RoundAndRound(p), i)
  {
    hide RoundAndRound, StateOf, StepOf, LineupAt, InLap, Place, Segment, Mover;
    var done := TrainComes(p, i, 0, 12);
    SameRun(p, done);
    OnScript(p, done);
    NothingLeft(StateOf(p, done), LineupAt(p.k, Segment(done)));
  }

  lemma KeepsPolling(p: Plan, i: nat, y: Zone)
    requires Sensible(p)
    ensures PolledAfter(RoundAndRound(p), i, y)
  {
    var poll := ZoneComes(p, i, y, 20);
    SameRun(p, poll);
    StepOfScript(p, poll);
    assert PollsZone(RoundAndRound(p).step(poll), y) by {
      hide RoundAndRound, StateOf, StepOf, LineupAt;
    }
    hide RoundAndRound, Barred, PollsZone;
  }

  lemma KeepsMoving(p: Plan, i: nat, t: nat)
    requires Sensible(p) && t < p.k
    ensures RelievedAfter(RoundAndRound(p), i, t)
  {
    var e := RoundAndRound(p);
    var move := TrainComes(p, i, t, 12);
    SameRun(p, move);
    StepOfScript(p, move);
    assert e.step(move) == FrontFirst(t) by {
      hide RoundAndRound, StateOf, StepOf, LineupAt;
    }
    hide RoundAndRound, IsExecution, StateOf, StepOf, Urged;
    IsAnExecution(p);
    TrainCount(e, move);
    assert MovesTrain(e.step(move)) && e.step(move).train == t;
  }

  lemma TurnsObeysAndPolls(p: Plan)
    requires Sensible(p)
    ensures ControlTurns(RoundAndRound(p)) && LineMoves(RoundAndRound(p)) && MonitorsPoll(RoundAndRound(p))
  {
    hide RoundAndRound, TurnsAfter, ObeysAfter, PolledAfter;
    forall i: nat
      ensures TurnsAfter(RoundAndRound(p), i)
    {
      KeepsTurning(p, i);
    }
    forall i: nat
      ensures ObeysAfter(RoundAndRound(p), i)
    {
      KeepsObeying(p, i);
    }
    forall i: nat, y: Zone
      ensures PolledAfter(RoundAndRound(p), i, y)
    {
      KeepsPolling(p, i, y);
    }
  }

  lemma TheTrainsMove(p: Plan)
    requires Sensible(p)
    ensures TrainsMove(RoundAndRound(p))
  {
    IsAnExecution(p);
    hide RoundAndRound, RelievedAfter, IsExecution;
    forall i: nat, t: nat | t < |RoundAndRound(p).state(0).trains|
      ensures RelievedAfter(RoundAndRound(p), i, t)
    {
      KeepsMoving(p, i, t);
    }
  }

  /** The hypotheses can be met by one, two and three trains, in AUTOMATIC and in MANUAL: they go round for ever. */
  lemma FairExecutionExists(p: Plan)
    requires Sensible(p)
    ensures IsExecution(RoundAndRound(p)) && Fair(RoundAndRound(p)) && WorksFrom(RoundAndRound(p), 0)
    ensures |RoundAndRound(p).state(0).trains| == p.k
    ensures forall i: nat :: RoundAndRound(p).step(i).HearMode? ==> RoundAndRound(p).step(i) == Heeds(p.mode)
  {
    hide RoundAndRound, IsExecution, SoundFrom, RunningFrom, NoneStranded, ButtonPressed, ControlTurns, LineMoves,
         MonitorsPoll, TrainsMove;
    IsAnExecution(p);
    StartIsOrderly(RoundAndRound(p));
    SoundThroughout(p);
    RunsAndGrants(p);
    TurnsObeysAndPolls(p);
    TheTrainsMove(p);
    forall i: nat | RoundAndRound(p).step(i).HearMode?
      ensures RoundAndRound(p).step(i) == Heeds(p.mode)
    {
      HeedsThroughout(p, i);
    }
  }
}
