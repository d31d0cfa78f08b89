/** A stranded zone gridlocks the ring: freedom from stranding is exactly what no gridlock needs of the past. */
module Stranded {
  import opened Coaster
  import opened BrakeZones
  import opened ClosedLoop
  import opened BlockSafety
  import opened Progress

  // -------------------------------------------------------------------- once stranded, for ever

  lemma StrandedRead(b: Block)
    requires Recorded(b) && !Orderly(b) && b.queue != []
    ensures !Orderly(AfterRead(b))
  {
    var e := b.queue[0];
    OneEvent(b.monitor, e);
    ReadRecorded(b);
    hide PollStep;
    if |b.queue| >= 2 {
      assert b.queue[1..][|b.queue| - 2] == b.queue[|b.queue| - 1];
    } else {
      assert b.queue[1..] == [];
    }
  }

  lemma StrandedQuiet(b: Block)
    requires Recorded(b) && !Orderly(b) && b.queue == []
    ensures !Orderly(AfterQuiet(b))
  {
  }

  lemma StrandedStay(s: World, step: Step, z: Zone, b: Block, b': Block)
    requires Recorded(b) && !Orderly(b) && BlockStep(s, step, z, b, b') && Sound(s, step) && b == s.blocks.Get(z)
    ensures !Orderly(b')
  {
    hide Recorded, AfterRead, AfterQuiet, Polled;
    if step == QuietPoll(z) {
      StrandedQuiet(b);
    } else if step == ReadEvent(z) {
      StrandedRead(b);
    }
  }

  lemma StrandedMove(b: Block, b': Block)
    requires !Orderly(b) && MoveStep(b, b')
    ensures !Orderly(b')
  {
  }

  lemma StrandedStep(s: World, step: Step, z: Zone)
    requires Inv(s) && Allowed(s, step) && Sound(s, step) && !Orderly(s.blocks.Get(z))
    ensures !Orderly(Next(s, step).blocks.Get(z))
  {
    var b := s.blocks.Get(z);
    assert Recorded(b);
    hide Inv, Next, Recorded, Orderly, Sound, Enabled, Handover, FastController, CommandingMode, MoveStep, BlockStep;
    if MovesTrain(step) {
      MoveSteps(s, step, z);
      StrandedMove(b, Next(s, step).blocks.Get(z));
    } else {
      BlockSteps(s, step, z);
      StrandedStay(s, step, z, b, Next(s, step).blocks.Get(z));
    }
  }

  lemma {:induction false} StrandedAlways(e: Execution, n: nat, k: nat, z: Zone)
    requires IsExecution(e) && SoundFrom(e, n) && !Orderly(BlockAt(e, n, z)) && n <= k
    ensures !Orderly(BlockAt(e, k, z))
    decreases k
  {
    hide Inv, Next, Orderly, Sound, Allowed, IsExecution, SoundFrom;
    if n < k {
      StrandedAlways(e, n, k - 1, z);
      SoundStep(e, n, k - 1);
      StrandedStep(e.state(k - 1), e.step(k - 1), z);
    }
  }

  /** No train enters a stranded zone. */
  lemma NobodyGetsIn(s: World, step: Step)
    requires Inv(s) && Allowed(s, step) && CrossesAhead(s, step)
    ensures Orderly(s.blocks.Get(s.trains[step.train].zone.Next()))
  {
    var b := s.blocks.Get(s.trains[step.train].zone.Next());
    CrossingIsSafe(s, step);
    assert Recorded(b);
    hide Inv, Allowed, Recorded;
    if b.happened >= 1 {
      NotRead(b);
    }
  }

  lemma NotRead(b: Block)
    requires Recorded(b) && b.monitor.internal == Empty && RiseFirst !in b.queue
    ensures b.happened == 0
  {
    if b.happened >= 1 {
      UnreadArrival(b);
    }
  }

  // -------------------------------------------------------- crossings left before a closed zone

  /** How many zones lie between `y` and `z`. */
  function ZonesBetween(y: Zone, z: Zone): nat
    decreases if y == z then 4 else if y.Next() == z then 0 else if y.Next().Next() == z then 1 else 2
  {
    if y.Next() == z then 0 else 1 + ZonesBetween(y.Next(), z)
  }

  /** How many crossings a train can still make without entering `z`. */
  function Room(p: Position, z: Zone): nat {
    ZonesBetween(if p.phase == Spanning then p.zone.Next() else p.zone, z)
  }

  function RoomSum(ps: seq<Position>, z: Zone): nat {
    if ps == [] then 0 else Room(ps[0], z) + RoomSum(ps[1..], z)
  }

  lemma {:induction false} RoomSumUpdate(ps: seq<Position>, t: nat, p: Position, z: Zone)
    requires t < |ps|
    ensures RoomSum(ps[t := p], z) == RoomSum(ps, z) - Room(ps[t], z) + Room(p, z)
  {
    hide Room;
    if t > 0 {
      assert ps[t := p][1..] == ps[1..][t - 1 := p];
      RoomSumUpdate(ps[1..], t - 1, p, z);
    } else {
      assert ps[t := p][1..] == ps[1..];
    }
  }

  lemma RoomStep(s: World, step: Step, z: Zone)
    requires Enabled(s, step)
    requires CrossesAhead(s, step) ==> s.trains[step.train].zone.Next() != z
    ensures RoomSum(Next(s, step).trains, z) + (if CrossesAhead(s, step) then 1 else 0) == RoomSum(s.trains, z)
  {
    TrainCountStep(s, step);
    hide Emit, Unseen, AfterQuiet, AfterRead, Polled, Put, RoomSum, Free;
    match step
    case Arrive(t) => RoomSumUpdate(s.trains, t, Position(s.trains[t].zone, Standing), z);
    case RearFirst(t) => RoomSumUpdate(s.trains, t, Position(s.trains[t].zone, Between), z);
    case FrontFirst(t) => RoomSumUpdate(s.trains, t, Position(s.trains[t].zone, Spanning), z);
    case Complete(t) => RoomSumUpdate(s.trains, t, Position(s.trains[t].zone.Next(), Approaching), z);
    case _ =>
  }

  lemma RoomShrinks(e: Execution, n: nat, k: nat, z: Zone)
    requires IsExecution(e) && SoundFrom(e, n) && !Orderly(BlockAt(e, n, z)) && n <= k
    ensures var room, crossed := RoomSum(e.state(k).trains, z), CrossesAhead(e.state(k), e.step(k));
            RoomSum(e.state(k + 1).trains, z) + (if crossed then 1 else 0) == room
  {
    SoundStep(e, n, k);
    StrandedAlways(e, n, k, z);
    assert Enabled(e.state(k), e.step(k));
    hide Next, Enabled, Allowed, Inv, CrossesAhead, RoomSum, Orderly, Sound, IsExecution, SoundFrom;
    if CrossesAhead(e.state(k), e.step(k)) {
      NobodyGetsIn(e.state(k), e.step(k));
    }
    RoomStep(e.state(k), e.step(k), z);
  }

  lemma {:induction false} RoomFalls(e: Execution, n: nat, k: nat, z: Zone)
    requires IsExecution(e) && SoundFrom(e, n) && !Orderly(BlockAt(e, n, z)) && n <= k
    ensures RoomSum(e.state(k).trains, z) <= RoomSum(e.state(n).trains, z)
  {
    hide *;
    if n < k {
      RoomFalls(e, n, k - 1, z);
      RoomShrinks(e, n, k - 1, z);
    }
  }

  /** With a zone stranded, crossings come to an end, whatever the control thread and the trains do. */
  lemma {:induction false} StrandedGridlocks(e: Execution, n: nat, z: Zone) returns (m: nat)
    requires IsExecution(e) && SoundFrom(e, n) && !Orderly(BlockAt(e, n, z))
    ensures n <= m && NoCrossingFrom(e, m)
    decreases RoomSum(e.state(n).trains, z)
  {
    hide IsExecution, RoomSum, CrossesAhead, Orderly, Sound;
    if NoCrossingFrom(e, n) {
      m := n;
    } else {
      var k: nat :| n <= k && CrossesAhead(e.state(k), e.step(k));
      RoomFalls(e, n, k, z);
      RoomShrinks(e, n, k, z);
      StrandedAlways(e, n, k + 1, z);
      m := StrandedGridlocks(e, k + 1, z);
    }
  }

  /** Crossings go on for ever. */
  ghost predicate NeverStops(e: Execution) {
    forall wait: nat :: CrossesAfter(e, wait)
  }

  ghost predicate CrossesAfter(e: Execution, wait: nat) {
    exists k: nat :: wait <= k && CrossesAhead(e.state(k), e.step(k))
  }

  /** With four trains, or none, nobody ever crosses. */
  lemma NoRoomAtAll(s: World, step: Step)
    requires Inv(s) && Allowed(s, step) && CrossesAhead(s, step)
    ensures 1 <= |s.trains| <= 3
  {
    var z := s.trains[step.train].zone.Next();
    CrossingIsSafe(s, step);
    assert DistinctZones(s);
    hide Inv, Allowed;
    if |s.trains| >= 4 {
      FourZones(s, z);
      assert false;
    }
  }

  lemma FourZones(s: World, z: Zone)
    requires DistinctZones(s) && |s.trains| >= 4
    ensures exists t :: 0 <= t < |s.trains| && Occupies(s.trains[t], z)
  {
    var a, b, c, d := s.trains[0].zone, s.trains[1].zone, s.trains[2].zone, s.trains[3].zone;
    assert a != b && a != c && a != d && b != c && b != d && c != d;
    assert z == a || z == b || z == c || z == d;
    assert Occupies(s.trains[0], a) && Occupies(s.trains[1], b) && Occupies(s.trains[2], c) && Occupies(s.trains[3], d);
  }

  lemma CrossingTrains(e: Execution, k: nat)
    requires IsExecution(e) && CrossesAhead(e.state(k), e.step(k))
    ensures 1 <= |e.state(0).trains| <= 3
  {
    assert StepAt(e, k);
    hide Next, Enabled, Handover, FastController, CommandingMode, Inv, CrossesAhead, ConsistentStart;
    InvAlways(e, k);
    TrainCount(e, k);
    NoRoomAtAll(e.state(k), e.step(k));
  }

  /**
   * No gridlock, exactly. Take a fair run in which from `n` on the sensors work and the modes are
   * AUTOMATIC and MANUAL. Trains keep crossing for ever if and only if there are one to three of them
   * and no zone is stranded at `n`: no first sensor has fallen behind the last train to leave a zone
   * still shown occupied.
   */
  lemma GridlockExactly(e: Execution, n: nat)
    requires IsExecution(e) && Fair(e) && SoundFrom(e, n) && RunningFrom(e, n)
    ensures NeverStops(e) <==> 1 <= |e.state(0).trains| <= 3 && NoneStranded(e.state(n))
  {
    hide IsExecution, Fair, SoundFrom, RunningFrom, Orderly, CrossesAhead;
    if k: nat :| CrossesAhead(e.state(k), e.step(k)) {
      CrossingTrains(e, k);
      if NoneStranded(e.state(n)) {
        forall wait: nat
          ensures CrossesAfter(e, wait)
        {
          NoGridlock(e, n, wait);
        }
      } else {
        var z: Zone :| !Orderly(e.state(n).blocks.Get(z));
        var m := StrandedGridlocks(e, n, z);
        assert !CrossesAfter(e, m);
      }
    } else {
      assert !CrossesAfter(e, 0);
      if 1 <= |e.state(0).trains| <= 3 && NoneStranded(e.state(n)) {
        NoGridlock(e, n, 0);
      }
    }
  }
}
