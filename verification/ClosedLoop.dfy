/**
 * The whole system in motion: trains on the ring, the kernel's edge queues, four monitor threads, the
 * control thread and the line to the firmware, interleaved one small step at a time. The control
 * thread copies the zones one by one, and its commands are obeyed one by one, some time after it has
 * decided on them, with anything happening in between.
 */
module ClosedLoop {
  import opened Coaster
  import opened BrakeZones
  import opened Interlock
  import opened InterlockRuns

  /**
   * Where a train is within its zone: between the two sensors, standing on the second one, past the
   * second but not yet at the next zone's first (`Between`), or already on that one with its rear
   * still on the second (`Spanning`). It belongs to its zone until it has done both.
   */
  datatype Phase = Approaching | Standing | Between | Spanning

  datatype Position = Position(zone: Zone, phase: Phase)

  /** Which call of `updateState` comes next, or what the control thread does after all four. */
  datatype Pc = CopyLiftHill | CopyRide | CopyPreStation | CopyStation | AskMode | Sending

  /**
   * One zone's share of the state. `monitor` belongs to its monitor thread, `queue` holds edges the
   * kernel has not handed over yet, `copy` is the control thread's copy of the zone state. The rest
   * is bookkeeping for the statements below: how many of the three edges RiseFirst, RiseSecond,
   * FallSecond of the current passage have happened and been read; whether the train standing here
   * was there when this cycle copied the zone; how many of the pending commands are still to be
   * obeyed until those of the first decision that has seen it are, if there is such a decision; and
   * whether they have been.
   */
  datatype Block = Block(
    monitor: Monitor, queue: seq<LineEvent>, copy: ZoneState,
    happened: nat, read: nat, seen: bool, due: nat, acted: bool)

  /** `pending` holds the commands decided on and not obeyed yet, in order, still to be written or on the line. */
  datatype World = World(
    trains: seq<Position>, blocks: PerZone<Block>, actuators: Actuators,
    memory: Memory, pc: Pc, pending: seq<Message>)

  predicate On(s: World, z: Zone, phase: Phase) {
    Position(z, phase) in s.trains
  }

  predicate Leaving(s: World, z: Zone) {
    On(s, z, Between) || On(s, z, Spanning)
  }

  predicate Home(s: World, z: Zone) {
    On(s, z, Approaching) || On(s, z, Standing) || Leaving(s, z)
  }

  /** A held train in `z` can physically move off: its motor turns, or its brake is not fully closed. */
  predicate Free(z: Zone, a: Actuators) {
    match z
    case Station => a.station > 0
    case LiftHill => a.liftHill > 0
    case Ride => a.ride != RIDE_STOP
    case PreStation => a.preStation != PRESTATION_STOP
  }

  function Copies(s: World): Snapshot {
    PerZone(s.blocks.station.copy, s.blocks.liftHill.copy, s.blocks.ride.copy, s.blocks.preStation.copy)
  }

  /** The zone the control thread copies next. */
  function CopyTarget(pc: Pc): Zone
    requires pc != AskMode && pc != Sending
  {
    match pc
    case CopyLiftHill => LiftHill
    case CopyRide => Ride
    case CopyPreStation => PreStation
    case CopyStation => Station
  }

  function AfterCopy(pc: Pc): Pc {
    match pc
    case CopyLiftHill => CopyRide
    case CopyRide => CopyPreStation
    case CopyPreStation => CopyStation
    case CopyStation => AskMode
    case AskMode => AskMode
    case Sending => Sending
  }

  /** `z` has been copied in the cycle under way. */
  predicate Copied(pc: Pc, z: Zone) {
    match pc
    case CopyLiftHill => false
    case CopyRide => z == LiftHill
    case CopyPreStation => z == LiftHill || z == Ride
    case CopyStation => z != Station
    case AskMode => true
    case Sending => true
  }

  datatype Step =
    // trains, by index
    | Arrive(train: nat)       // reaches the second sensor
    | RearFirst(train: nat)    // leaves the second sensor before reaching the next zone
    | FrontFirst(train: nat)   // reaches the next zone before leaving the second sensor
    | Complete(train: nat)     // does the other of the two
    | StrayEdge(zone: Zone)    // a first sensor falls, as behind a passing train
    // monitor threads
    | QuietPoll(zone: Zone)    // `select` times out or fails
    | FailedRead(zone: Zone)   // `select` succeeds, the read does not
    | ReadEvent(zone: Zone)    // takes the next queued edge
    // control thread
    | CopyZone
    | HearMode(modeReply: seq<byte>, startReply: seq<byte>)
    | EndCycle                 // has written all it decided on
    // the firmware
    | ObeyNext                 // obeys the next command that reaches it

  function Emit(b: Block, e: LineEvent): Block {
    b.(queue := b.queue + [e], happened := b.happened + 1)
  }

  /** The notes kept on a standing train end when it comes or goes. */
  function Unseen(b: Block): Block {
    b.(seen := false, due := 0, acted := false)
  }

  function Moved(s: World, t: nat, to: Position): seq<Position>
    requires t < |s.trains|
  {
    s.trains[t := to]
  }

  /** The state with train `t` at `to`, and new blocks for its zone and the one ahead. */
  function Shifted(s: World, t: nat, to: Position, here: Block, ahead: Block): World
    requires t < |s.trains|
  {
    var z := s.trains[t].zone;
    s.(trains := Moved(s, t, to), blocks := Put(Put(s.blocks, z, here), z.Next(), ahead))
  }

  /** The state with a new block for `z`. */
  function Replaced(s: World, z: Zone, b: Block): World {
    s.(blocks := Put(s.blocks, z, b))
  }

  /** A block whose monitor has been handed `p`. */
  function Polled(b: Block, p: Poll): Block {
    b.(monitor := PollStep(b.monitor, p))
  }

  function AfterQuiet(b: Block): Block {
    if WouldVacate(b.monitor) then Polled(b, Quiet).(happened := 0, read := 0) else Polled(b, Quiet)
  }

  function AfterRead(b: Block): Block
    requires b.queue != []
  {
    Polled(b, Batch([b.queue[0]])).(
      queue := b.queue[1..],
      read := if b.queue[0] == FallFirst then b.read else b.read + 1)
  }

  /** What the control thread sees and decides in a cycle that gets these answers. */
  function CycleOf(s: World, modeReply: seq<byte>, startReply: seq<byte>): Cycle {
    Cycle(Copies(s), modeReply, startReply)
  }

  /** A quiet poll of `z` would declare it empty. */
  predicate WouldVacate(m: Monitor) {
    m.timeouts + 1 >= QUIET_POLLS_TO_VACATE && m.internal == Entered && m.fallLast
  }

  predicate Enabled(s: World, step: Step) {
    match step
    case Arrive(t) => t < |s.trains| && s.trains[t].phase == Approaching
    case RearFirst(t) => t < |s.trains| && s.trains[t].phase == Standing && Free(s.trains[t].zone, s.actuators)
    case FrontFirst(t) => t < |s.trains| && s.trains[t].phase == Standing && Free(s.trains[t].zone, s.actuators)
    case Complete(t) => t < |s.trains| && (s.trains[t].phase == Between || s.trains[t].phase == Spanning)
    case StrayEdge(_) => true
    case QuietPoll(_) => true
    case FailedRead(_) => true
    case ReadEvent(z) => s.blocks.Get(z).queue != []
    case CopyZone => s.pc != AskMode && s.pc != Sending
    case HearMode(_, _) => s.pc == AskMode
    case EndCycle => s.pc == Sending
    case ObeyNext => s.pending != []
  }

  function Next(s: World, step: Step): World
    requires Enabled(s, step)
  {
    match step
    case Arrive(t) =>
      var z := s.trains[t].zone;
      Shifted(s, t, Position(z, Standing), Emit(Unseen(s.blocks.Get(z)), RiseSecond), s.blocks.Get(z.Next()))
    case RearFirst(t) =>
      var z := s.trains[t].zone;
      Shifted(s, t, Position(z, Between), Emit(Unseen(s.blocks.Get(z)), FallSecond), s.blocks.Get(z.Next()))
    case FrontFirst(t) =>
      var z := s.trains[t].zone;
      Shifted(s, t, Position(z, Spanning), Unseen(s.blocks.Get(z)), Emit(s.blocks.Get(z.Next()), RiseFirst))
    case Complete(t) =>
      var z := s.trains[t].zone;
      var to := Position(z.Next(), Approaching);
      if s.trains[t].phase == Between
      then Shifted(s, t, to, s.blocks.Get(z), Emit(s.blocks.Get(z.Next()), RiseFirst))
      else Shifted(s, t, to, Emit(s.blocks.Get(z), FallSecond), s.blocks.Get(z.Next()))
    case StrayEdge(z) =>
      Replaced(s, z, s.blocks.Get(z).(queue := s.blocks.Get(z).queue + [FallFirst]))
    case QuietPoll(z) =>
      Replaced(s, z, AfterQuiet(s.blocks.Get(z)))
    case FailedRead(z) =>
      Replaced(s, z, Polled(s.blocks.Get(z), Batch([])))
    case ReadEvent(z) =>
      Replaced(s, z, AfterRead(s.blocks.Get(z)))
    case CopyZone =>
      var z := CopyTarget(s.pc);
      var b := s.blocks.Get(z);
      Replaced(s, z, b.(copy := b.monitor.internal, seen := On(s, z, Standing) && b.monitor.internal == Entered))
        .(pc := AfterCopy(s.pc))
    case HearMode(modeReply, startReply) =>
      var c := CycleOf(s, modeReply, startReply);
      var pending := s.pending + SentIn(s.memory, c);
      s.(pc := Sending, memory := AfterCycle(s.memory, c), pending := pending,
         blocks := AllDecided(s.blocks, |pending|))
    case EndCycle =>
      s.(pc := CopyLiftHill, blocks := AllEnded(s.blocks))
    case ObeyNext =>
      s.(actuators := Obey(s.pending[0], s.actuators), pending := s.pending[1..], blocks := AllObeyed(s.blocks))
  }

  /** A decision has been made, and with it `n` commands are pending. */
  function DecidedBlock(b: Block, n: nat): Block {
    if b.seen && b.due == 0 && !b.acted then b.(due := n) else b
  }

  function AllDecided(blocks: PerZone<Block>, n: nat): PerZone<Block> {
    PerZone(DecidedBlock(blocks.station, n), DecidedBlock(blocks.liftHill, n), DecidedBlock(blocks.ride, n),
            DecidedBlock(blocks.preStation, n))
  }

  function EndBlock(b: Block): Block {
    b.(seen := false)
  }

  function AllEnded(blocks: PerZone<Block>): PerZone<Block> {
    PerZone(EndBlock(blocks.station), EndBlock(blocks.liftHill), EndBlock(blocks.ride), EndBlock(blocks.preStation))
  }

  /** The first pending command has been obeyed. */
  function ObeyedBlock(b: Block): Block {
    b.(acted := b.acted || b.due == 1, due := if b.due > 0 then b.due - 1 else 0)
  }

  function AllObeyed(blocks: PerZone<Block>): PerZone<Block> {
    PerZone(ObeyedBlock(blocks.station), ObeyedBlock(blocks.liftHill), ObeyedBlock(blocks.ride),
            ObeyedBlock(blocks.preStation))
  }

  // ---------------------------------------------------------------------- the environment

  /**
   * Handover: a zone is not timed out while the train that left it has yet to be recorded ahead,
   * neither before it reaches the next zone nor before that zone's monitor has read its arrival.
   */
  predicate Handover(s: World, step: Step) {
    step.QuietPoll? && WouldVacate(s.blocks.Get(step.zone).monitor) ==>
      var ahead := s.blocks.Get(step.zone.Next());
      !On(s, step.zone, Between) && !(ahead.monitor.internal == Empty && RiseFirst in ahead.queue)
  }

  /**
   * Fast controller: a train that has come to stand does not leave before a cycle has seen it and all
   * that cycle sent has been obeyed.
   */
  predicate FastController(s: World, step: Step) {
    (step.RearFirst? || step.FrontFirst?) && step.train < |s.trains| ==> s.blocks.Get(s.trains[step.train].zone).acted
  }

  /** No maintenance, and no mode the firmware does not have. */
  predicate CommandingMode(s: World, step: Step) {
    step.HearMode? ==>
      var mode := ModeIn(s.memory, CycleOf(s, step.modeReply, step.startReply));
      Running(mode) || Halted(mode)
  }

  predicate Allowed(s: World, step: Step) {
    Enabled(s, step) && Handover(s, step) && FastController(s, step) && CommandingMode(s, step)
  }

  /** Every step of the run is allowed where it is taken. */
  predicate AllowedRun(s: World, steps: seq<Step>)
    decreases steps
  {
    steps == [] || (Allowed(s, steps[0]) && AllowedRun(Next(s, steps[0]), steps[1..]))
  }

  function After(s: World, steps: seq<Step>): World
    requires AllowedRun(s, steps)
    decreases steps
  {
    if steps == [] then s else After(Next(s, steps[0]), steps[1..])
  }

  predicate FreshBlock(b: Block, state: ZoneState, happened: nat) {
    && b.monitor.internal == state && !b.monitor.fallLast && b.queue == []
    && b.happened == b.read == happened && !b.seen && b.due == 0 && !b.acted
  }

  /**
   * Consistent start: no two trains in one zone, every train between the sensors of its zone or
   * standing on the second one, each zone recorded accordingly, brakes closed, motors off, and the
   * control thread about to begin a cycle. The program itself starts with every zone recorded EMPTY,
   * which is this state for a ring without trains.
   */
  ghost predicate ConsistentStart(s: World) {
    && (forall t, u :: 0 <= t < u < |s.trains| ==> s.trains[t].zone != s.trains[u].zone)
    && (forall t :: 0 <= t < |s.trains| ==> s.trains[t].phase == Approaching || s.trains[t].phase == Standing)
    && (forall z: Zone ::
          if On(s, z, Approaching) then FreshBlock(s.blocks.Get(z), Entering, 1)
          else if On(s, z, Standing) then FreshBlock(s.blocks.Get(z), Entered, 2)
          else FreshBlock(s.blocks.Get(z), Empty, 0))
    && s.actuators == PerZone(0, 0, RIDE_STOP, PRESTATION_STOP)
    && s.memory == BOOT && s.pc == CopyLiftHill && s.pending == []
  }

  // ---------------------------------------------------------------------------- block safety

  /** The zones a train is in: its own, and the next one as soon as its front is there. */
  predicate Occupies(p: Position, z: Zone) {
    z == p.zone || (p.phase == Spanning && z == p.zone.Next())
  }

  /** No zone holds two trains. */
  ghost predicate Safe(s: World) {
    forall t, u, z: Zone :: 0 <= t < u < |s.trains| && Occupies(s.trains[t], z) ==> !Occupies(s.trains[u], z)
  }

  /** The step takes the front of train `t` into the next zone. */
  predicate CrossesAhead(s: World, step: Step) {
    || (step.FrontFirst? && step.train < |s.trains|)
    || (step.Complete? && step.train < |s.trains| && s.trains[step.train].phase == Between)
  }

  /** The zone ahead of a crossing train is recorded EMPTY, with no arrival unread, and holds no train. */
  ghost predicate CrossesIntoEmpty(s: World, step: Step) {
    CrossesAhead(s, step) ==>
      var z := s.trains[step.train].zone.Next();
      && s.blocks.Get(z).monitor.internal == Empty && RiseFirst !in s.blocks.Get(z).queue
      && forall u :: 0 <= u < |s.trains| ==> !Occupies(s.trains[u], z)
  }
}
