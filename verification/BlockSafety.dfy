/** Block safety: the invariant every step of the closed loop keeps, and what follows from it. */
module BlockSafety {
  import opened Coaster
  import opened BrakeZones
  import opened Interlock
  import opened InterlockRuns
  import opened ClosedLoop

  // --------------------------------------------------------------- what a zone has recorded

  /** The edges one passage of one train puts on a zone's lines, first-sensor falls aside. */
  const PASSAGE: seq<LineEvent> := [RiseFirst, RiseSecond, FallSecond]

  /** A queue without the edges that only clear the exit flag. */
  function Essential(q: seq<LineEvent>): seq<LineEvent> {
    if q == [] then []
    else if q[0] == FallFirst then Essential(q[1..])
    else [q[0]] + Essential(q[1..])
  }

  function StateAfter(read: nat): ZoneState {
    if read == 0 then Empty else if read == 1 then Entering else Entered
  }

  /** The queue holds exactly the edges that have happened and were not read; the monitor shows the ones that were. */
  predicate Recorded(b: Block) {
    && b.read <= b.happened <= 3
    && Essential(b.queue) == PASSAGE[b.read..b.happened]
    && b.monitor.internal == StateAfter(b.read)
    && (b.monitor.internal == Entered && b.monitor.fallLast ==> b.read == 3)
  }

  lemma {:induction false} EssentialAppend(q: seq<LineEvent>, e: LineEvent)
    ensures Essential(q + [e]) == if e == FallFirst then Essential(q) else Essential(q) + [e]
  {
    if q == [] {
      assert q + [e] == [e];
      assert [e][1..] == [];
    } else {
      assert (q + [e])[1..] == q[1..] + [e];
      EssentialAppend(q[1..], e);
    }
  }

  lemma {:induction false} EssentialKeeps(q: seq<LineEvent>, e: LineEvent)
    requires e in Essential(q)
    ensures e in q
  {
    if q[0] != e {
      EssentialKeeps(q[1..], e);
    }
  }

  lemma EmitRecorded(b: Block, e: LineEvent)
    requires Recorded(b) && b.happened < 3 && e == PASSAGE[b.happened]
    ensures Recorded(Emit(b, e))
  {
    EssentialAppend(b.queue, e);
    assert PASSAGE[b.read..b.happened] + [e] == PASSAGE[b.read..b.happened + 1];
  }

  lemma UnseenRecorded(b: Block)
    requires Recorded(b)
    ensures Recorded(Unseen(b))
  {
  }

  lemma StrayRecorded(b: Block)
    requires Recorded(b)
    ensures Recorded(b.(queue := b.queue + [FallFirst]))
  {
    EssentialAppend(b.queue, FallFirst);
  }

  lemma OneEvent(m: Monitor, e: LineEvent)
    ensures PollStep(m, Batch([e])) == StepLine(m.(timeouts := 0), e)
  {
    assert [e][..0] == [];
    assert StepLines(m.(timeouts := 0), [e][..0]) == m.(timeouts := 0);
  }

  lemma ReadRecorded(b: Block)
    requires Recorded(b) && b.queue != []
    ensures var e := b.queue[0];
            Recorded(AfterRead(b)) && (e != FallFirst ==> b.read < b.happened)
  {
    var e := b.queue[0];
    OneEvent(b.monitor, e);
    hide PollStep;
    if e != FallFirst {
      assert Essential(b.queue)[0] == e && Essential(b.queue)[1..] == Essential(b.queue[1..]);
      assert PASSAGE[b.read..b.happened][0] == PASSAGE[b.read];
      assert PASSAGE[b.read..b.happened][1..] == PASSAGE[b.read + 1..b.happened];
    }
  }

  lemma QuietRecorded(b: Block)
    requires Recorded(b)
    ensures Recorded(AfterQuiet(b)) && (WouldVacate(b.monitor) ==> b.read == b.happened == 3)
  {
    assert PASSAGE[3..3] == [] && PASSAGE[0..0] == [];
  }

  lemma UnreadArrival(b: Block)
    requires Recorded(b) && b.happened >= 1 && b.read == 0
    ensures b.monitor.internal == Empty && RiseFirst in b.queue
  {
    assert PASSAGE[0..b.happened][0] == RiseFirst;
    EssentialKeeps(b.queue, RiseFirst);
  }

  lemma NoArrivalQueued(b: Block)
    requires Recorded(b) && b.happened == 0
    ensures b.monitor.internal == Empty && RiseFirst !in b.queue
  {
    assert Essential(b.queue) == [];
    NoneEssential(b.queue);
  }

  lemma {:induction false} NoneEssential(q: seq<LineEvent>)
    requires Essential(q) == []
    ensures RiseFirst !in q
  {
    if q != [] {
      NoneEssential(q[1..]);
      assert q == [q[0]] + q[1..];
    }
  }

  // ------------------------------------------------------------------------- the invariant

  /** Where the actuators will stand when all that is pending has been obeyed. */
  function Settled(s: World): Actuators {
    ObeyAll(s.pending, s.actuators)
  }

  predicate BrakeClosed(z: Zone, a: Actuators) {
    Braked(z) ==> a.Get(z) == StopPosition(z)
  }

  /** `z` is free at some moment while `ms` are obeyed one by one from `a`, once `d` of them have been. */
  predicate EverFree(z: Zone, ms: seq<Message>, a: Actuators, d: nat)
    decreases ms
  {
    (d == 0 && Free(z, a)) || (ms != [] && EverFree(z, ms[1..], Obey(ms[0], a), if d > 0 then d - 1 else 0))
  }

  /** The train in `z` has been decided on, and may find its way free once that decision has been obeyed. */
  predicate MayGo(s: World, z: Zone) {
    var b := s.blocks.Get(z);
    (b.acted || b.due > 0) && EverFree(z, s.pending, s.actuators, b.due)
  }

  /** What the rules below need to know of a zone. */
  datatype View = View(
    approaching: bool, standing: bool, between: bool, spanning: bool,
    happened: nat, read: nat, seen: bool, due: bool, acted: bool, copied: bool, copy: ZoneState,
    mayGo: bool, willBeFree: bool, willBeClosed: bool)
  {
    predicate Leaving() {
      between || spanning
    }

    predicate Home() {
      approaching || standing || Leaving()
    }

    /** The train standing here may leave, now or while what is pending is obeyed. */
    predicate Cleared() {
      standing && mayGo
    }
  }

  function ViewOf(s: World, z: Zone): View {
    var b := s.blocks.Get(z);
    View(On(s, z, Approaching), On(s, z, Standing), On(s, z, Between), On(s, z, Spanning),
         b.happened, b.read, b.seen, b.due > 0, b.acted, Copied(s.pc, z), b.copy,
         MayGo(s, z), Free(z, Settled(s)), BrakeClosed(z, Settled(s)))
  }

  predicate AtMostOne(v: View) {
    && (v.approaching ==> !v.standing && !v.Leaving())
    && (v.standing ==> !v.Leaving())
    && !(v.between && v.spanning)
  }

  /** Positions and the edges that have happened agree. */
  predicate Tracked(behind: View, here: View, ahead: View) {
    && (here.approaching ==> here.happened == 1)
    && (here.standing ==> here.happened == 2)
    && (here.spanning ==> here.happened == 2 && ahead.happened == 1)
    && (here.between ==> here.happened == 3 && ahead.happened == 0)
    && (!here.Home() && !behind.spanning ==> here.happened == 0 || here.happened == 3)
  }

  /** A train that was acted on, or has begun to leave, had been recorded as ENTERED. */
  predicate Noticed(here: View) {
    && (here.seen || here.due || here.acted ==> here.standing && here.read == 2)
    && (here.mayGo ==> here.due || here.acted) && !(here.due && here.acted)
    && (here.Leaving() ==> here.read >= 2)
  }

  /** While an arrival ahead is unread, the zone behind still shows the train, and nobody else is there. */
  predicate StillShown(here: View, ahead: View) {
    ahead.happened >= 1 && ahead.read == 0 ==> here.read >= 2 && (here.happened == 3 || here.spanning)
  }

  predicate SeenThisCycle(here: View) {
    && (here.seen ==> here.copied && here.copy == Entered)
    && (here.acted || here.due ==> here.copied ==> here.seen)
  }

  /** For a train this cycle has seen, a copy saying EMPTY ahead is still true. */
  predicate EmptyIsTrue(here: View, ahead: View) {
    here.seen && ahead.copied && ahead.copy == Empty ==> ahead.happened == 0
  }

  /** A cleared train has an empty zone ahead, whose brake will catch it. */
  predicate ClearedIntoEmpty(here: View, ahead: View) {
    here.Cleared() ==> ahead.happened == 0 && ahead.willBeClosed
  }

  /** A copy that is not EMPTY rules out anyone coming into the zone. */
  predicate NobodyComes(behind: View, here: View) {
    here.copied && here.copy != Empty ==>
      && !behind.Cleared() && !behind.between
      && (here.copy == Entered ==> !behind.spanning && !here.approaching && (here.standing ==> here.seen))
  }

  /** The brake is closed, or will be, before a train can come to stand on it unseen. */
  predicate BrakeReady(behind: View, here: View) {
    here.approaching || behind.Leaving() || (here.standing && !here.acted && !here.due)
    ==> here.willBeClosed
  }

  /**
   * The lift hill is copied before the station, so a copy may be out of date the moment the zone
   * behind it is copied. If a train has moved up since, nobody else is behind it, and nobody can
   * come before that zone is copied too.
   */
  predicate Overtaken(behind: View, here: View, ahead: View) {
    ahead.copied && !here.copied && ahead.copy == Empty && ahead.happened != 0 ==>
      !here.standing && !here.approaching && !here.between && !behind.Leaving() && !behind.Cleared()
  }

  predicate Rules(behind: View, here: View, ahead: View) {
    && AtMostOne(here)
    && (here.Leaving() ==> !ahead.Home())
    && Tracked(behind, here, ahead) && Noticed(here) && StillShown(here, ahead)
    && SeenThisCycle(here) && EmptyIsTrue(here, ahead)
    && ClearedIntoEmpty(here, ahead) && NobodyComes(behind, here)
    && BrakeReady(behind, here) && Overtaken(behind, here, ahead)
  }

  /** The rules all round, told from any zone `here` with `far` opposite. */
  predicate Ring(here: View, ahead: View, far: View, behind: View) {
    && Rules(behind, here, ahead) && Rules(here, ahead, far)
    && Rules(ahead, far, behind) && Rules(far, behind, here)
  }

  predicate RingFrom(s: World, z: Zone) {
    Ring(ViewOf(s, z), ViewOf(s, z.Next()), ViewOf(s, z.Next().Next()), ViewOf(s, z.Prev()))
  }

  ghost predicate DistinctZones(s: World) {
    forall t, u :: 0 <= t < u < |s.trains| ==> s.trains[t].zone != s.trains[u].zone
  }

  /** The mode is one that commands, and what is due is pending. */
  ghost predicate Sends(s: World) {
    && (Running(s.memory.state) || Halted(s.memory.state))
    && (forall z: Zone :: s.blocks.Get(z).due <= |s.pending|)
  }

  ghost predicate AllRecorded(s: World) {
    forall z: Zone :: Recorded(s.blocks.Get(z))
  }

  ghost predicate Inv(s: World) {
    DistinctZones(s) && Sends(s) && AllRecorded(s) && RingFrom(s, Station)
  }

  lemma RingFromAnywhere(s: World, z: Zone, y: Zone)
    requires RingFrom(s, z)
    ensures RingFrom(s, y)
  {
    hide Rules, ViewOf;
  }

  // ------------------------------------------------------------------------- moving a train

  /** In a ring of distinct zones, moving train `t` changes only what is on its old and new zones. */
  lemma MovedOn(s: World, t: nat, to: Position)
    requires t < |s.trains| && DistinctZones(s)
    ensures forall p :: p in Moved(s, t, to) <==> p == to || (p in s.trains && p.zone != s.trains[t].zone)
    ensures forall p :: p in s.trains && p.zone == s.trains[t].zone ==> p == s.trains[t]
  {
    var moved := Moved(s, t, to);
    forall p | p in s.trains && p.zone != s.trains[t].zone
      ensures p in moved
    {
      var i :| 0 <= i < |s.trains| && s.trains[i] == p;
      assert moved[i] == p;
    }
    assert moved[t] == to;
  }

  // --------------------------------------------------- each kind of step, on the views alone

  lemma ArriveRules(here: View, ahead: View, far: View, behind: View)
    requires Ring(here, ahead, far, behind) && here.approaching
    ensures here.happened == 1
    ensures Ring(here.(approaching := false, standing := true,
                       happened := 2, seen := false, due := false, acted := false, mayGo := false),
                 ahead, far, behind)
  {
  }

  lemma RearFirstRules(here: View, ahead: View, far: View, behind: View)
    requires Ring(here, ahead, far, behind) && here.Cleared()
    ensures here.happened == 2
    ensures Ring(here.(standing := false, between := true,
                       happened := 3, seen := false, due := false, acted := false, mayGo := false),
                 ahead, far, behind)
  {
  }

  lemma FrontFirstRules(here: View, ahead: View, far: View, behind: View)
    requires Ring(here, ahead, far, behind) && here.Cleared()
    ensures ahead.happened == 0
    ensures Ring(here.(standing := false, spanning := true,
                       seen := false, due := false, acted := false, mayGo := false),
                 ahead.(happened := 1), far, behind)
  {
  }

  lemma FrontCompletesRules(here: View, ahead: View, far: View, behind: View)
    requires Ring(here, ahead, far, behind) && here.between
    ensures ahead.happened == 0 && !ahead.Home()
    ensures Ring(here.(between := false), ahead.(approaching := true, happened := 1), far, behind)
  {
  }

  lemma RearCompletesRules(here: View, ahead: View, far: View, behind: View)
    requires Ring(here, ahead, far, behind) && here.spanning
    ensures here.happened == 2 && !ahead.Home()
    ensures Ring(here.(spanning := false, happened := 3), ahead.(approaching := true), far, behind)
  {
  }

  lemma VacateRules(here: View, ahead: View, far: View, behind: View)
    requires Ring(here, ahead, far, behind) && here.happened == 3 && here.read == 3
    requires !here.between && !(ahead.happened >= 1 && ahead.read == 0)
    ensures Ring(here.(happened := 0, read := 0), ahead, far, behind)
  {
  }

  lemma ReadRules(here: View, ahead: View, far: View, behind: View)
    requires Ring(here, ahead, far, behind) && here.read < here.happened <= 3
    ensures Ring(here.(read := here.read + 1), ahead, far, behind)
  {
  }

  function CopiedView(v: View): View {
    v.(copied := true, copy := StateAfter(v.read), seen := v.standing && v.read >= 2)
  }

  lemma CopyRules(here: View, ahead: View, far: View, behind: View)
    requires Ring(here, ahead, far, behind) && !here.copied && !here.seen && here.read <= here.happened <= 3
    ensures Ring(CopiedView(here), ahead, far, behind)
  {
  }

  /** What the commands of a cycle make of a zone, given the copies of it and of the zone ahead. */
  predicate DecidedOn(before: View, after: View, ahead: View) {
    && after == before.(due := before.due || (before.seen && !before.acted), mayGo := after.mayGo,
                        willBeFree := after.willBeFree, willBeClosed := after.willBeClosed)
    && (after.mayGo ==> before.mayGo || (after.willBeFree && (before.seen || before.due || before.acted)))
    && ((before.due || before.acted) && before.willBeFree ==> before.mayGo)
    && (before.copy == Entered && after.willBeFree ==>
          ahead.copy == Empty || (before.willBeFree && !before.willBeClosed))
    && (before.copy != Entered ==> after.willBeClosed)
  }

  lemma HearRule(here: View, ahead: View, far: View, behind: View, here': View, ahead': View, behind': View)
    requires Rules(behind, here, ahead) && Rules(here, ahead, far) && Rules(far, behind, here)
    requires here.copied && ahead.copied && behind.copied
    requires DecidedOn(here, here', ahead) && DecidedOn(ahead, ahead', far) && DecidedOn(behind, behind', here)
    ensures Rules(behind', here', ahead')
  {
  }

  lemma HearRules(here: View, ahead: View, far: View, behind: View, here': View, ahead': View, far': View,
      behind': View)
    requires Ring(here, ahead, far, behind)
    requires here.copied && ahead.copied && far.copied && behind.copied
    requires DecidedOn(here, here', ahead) && DecidedOn(ahead, ahead', far)
    requires DecidedOn(far, far', behind) && DecidedOn(behind, behind', here)
    ensures Ring(here', ahead', far', behind')
  {
    hide Rules, DecidedOn;
    HearRule(here, ahead, far, behind, here', ahead', behind');
    HearRule(ahead, far, behind, here, ahead', far', here');
    HearRule(far, behind, here, ahead, far', behind', ahead');
    HearRule(behind, here, ahead, far, behind', here', far');
  }

  /** Obeying the first of the pending commands lets no train go that could not go before. */
  predicate ObeyedOn(before: View, after: View) {
    && after == before.(due := after.due, acted := after.acted, mayGo := after.mayGo)
    && (after.mayGo ==> before.mayGo)
    && (after.due || after.acted <==> before.due || before.acted)
    && (after.due && after.acted ==> before.due && before.acted)
  }

  lemma ObeyRule(here: View, ahead: View, behind: View, here': View, ahead': View, behind': View)
    requires Rules(behind, here, ahead)
    requires ObeyedOn(here, here') && ObeyedOn(ahead, ahead') && ObeyedOn(behind, behind')
    ensures Rules(behind', here', ahead')
  {
  }

  lemma ObeyRules(here: View, ahead: View, far: View, behind: View, here': View, ahead': View, far': View,
      behind': View)
    requires Ring(here, ahead, far, behind)
    requires ObeyedOn(here, here') && ObeyedOn(ahead, ahead') && ObeyedOn(far, far') && ObeyedOn(behind, behind')
    ensures Ring(here', ahead', far', behind')
  {
    hide Rules, ObeyedOn;
    ObeyRule(here, ahead, behind, here', ahead', behind');
    ObeyRule(ahead, far, here, ahead', far', here');
    ObeyRule(far, behind, ahead, far', behind', ahead');
    ObeyRule(behind, here, far, behind', here', far');
  }

  function EndedView(v: View): View {
    v.(seen := false, copied := false)
  }

  lemma EndRule(here: View, ahead: View, behind: View)
    requires Rules(behind, here, ahead)
    ensures Rules(EndedView(behind), EndedView(here), EndedView(ahead))
  {
  }

  lemma EndRules(here: View, ahead: View, far: View, behind: View)
    requires Ring(here, ahead, far, behind)
    ensures Ring(EndedView(here), EndedView(ahead), EndedView(far), EndedView(behind))
  {
    hide Rules, EndedView;
    EndRule(here, ahead, behind);
    EndRule(ahead, far, here);
    EndRule(far, behind, ahead);
    EndRule(behind, here, far);
  }

  // ------------------------------------------------------- each kind of step, on the whole state

  lemma PutGet<T>(p: PerZone<T>, z: Zone, v: T)
    ensures Put(p, z, v).Get(z) == v
    ensures forall y: Zone :: y != z ==> Put(p, z, v).Get(y) == p.Get(y)
  {
  }

  lemma RoundTheRing(z: Zone)
    ensures z.Next() != z && z.Next().Next() != z && z.Prev() != z
    ensures z.Next().Next() != z.Next() && z.Prev() != z.Next() && z.Prev() != z.Next().Next()
  {
  }

  /** Only trains and blocks have changed, and only on `here` and `ahead`. */
  ghost predicate ChangedOnly(s: World, s': World, here: Zone, ahead: Zone) {
    && s'.actuators == s.actuators && s'.memory == s.memory && s'.pc == s.pc && s'.pending == s.pending
    && (forall y: Zone :: y != here && y != ahead ==> s'.blocks.Get(y) == s.blocks.Get(y))
    && (forall y: Zone, phase :: y != here && y != ahead ==> On(s', y, phase) == On(s, y, phase))
  }

  lemma SameView(s: World, s': World, here: Zone, ahead: Zone, y: Zone)
    requires ChangedOnly(s, s', here, ahead) && y != here && y != ahead
    ensures ViewOf(s', y) == ViewOf(s, y)
  {
    hide ObeyAll, Free, BrakeClosed;
  }

  lemma StillRecorded(s: World, s': World, here: Zone, ahead: Zone)
    requires ChangedOnly(s, s', here, ahead) && AllRecorded(s)
    requires Recorded(s'.blocks.Get(here)) && Recorded(s'.blocks.Get(ahead))
    ensures AllRecorded(s')
  {
    hide Recorded;
  }

  lemma StillSends(s: World, s': World, here: Zone, ahead: Zone)
    requires ChangedOnly(s, s', here, ahead) && Sends(s)
    requires KeptOrDropped(s.blocks.Get(here), s'.blocks.Get(here))
    requires KeptOrDropped(s.blocks.Get(ahead), s'.blocks.Get(ahead))
    ensures Sends(s')
  {
    hide Running, Halted;
    forall z: Zone
      ensures s'.blocks.Get(z).due <= |s'.pending|
    {
      assert s.blocks.Get(z).due <= |s.pending|;
    }
  }

  lemma Reassemble(s: World, s': World, here: Zone)
    requires Inv(s) && ChangedOnly(s, s', here, here.Next()) && DistinctZones(s')
    requires Recorded(s'.blocks.Get(here)) && Recorded(s'.blocks.Get(here.Next()))
    requires KeptOrDropped(s.blocks.Get(here), s'.blocks.Get(here))
    requires KeptOrDropped(s.blocks.Get(here.Next()), s'.blocks.Get(here.Next()))
    requires Ring(ViewOf(s', here), ViewOf(s', here.Next()), ViewOf(s, here.Next().Next()), ViewOf(s, here.Prev()))
    ensures Inv(s')
  {
    hide DistinctZones, Recorded, Ring, ViewOf;
    RoundTheRing(here);
    SameView(s, s', here, here.Next(), here.Next().Next());
    SameView(s, s', here, here.Next(), here.Prev());
    StillRecorded(s, s', here, here.Next());
    StillSends(s, s', here, here.Next());
    assert RingFrom(s', here);
    hide AllRecorded, RingFrom, Sends;
    RingFromAnywhere(s', here, Station);
  }

  lemma RingAt(s: World, here: Zone)
    requires Inv(s)
    ensures Ring(ViewOf(s, here), ViewOf(s, here.Next()), ViewOf(s, here.Next().Next()), ViewOf(s, here.Prev()))
  {
    hide ViewOf, Ring;
    RingFromAnywhere(s, Station, here);
  }

  lemma StaysDistinct(s: World, t: nat, to: Position)
    requires t < |s.trains| && DistinctZones(s)
    requires to.zone == s.trains[t].zone || !Home(s, to.zone)
    ensures forall i, j :: 0 <= i < j < |s.trains| ==> Moved(s, t, to)[i].zone != Moved(s, t, to)[j].zone
  {
    forall u | 0 <= u < |s.trains| && u != t
      ensures s.trains[u].zone != to.zone
    {
      if to.zone == s.trains[t].zone {
        if u < t {
        } else {
        }
      } else {
        assert s.trains[u] == Position(s.trains[u].zone, s.trains[u].phase);
        assert s.trains[u] in s.trains;
        match s.trains[u].phase
        case Approaching =>
        case Standing =>
        case Between =>
        case Spanning =>
      }
    }
  }

  /** A zone's view after `to` has come and `here` has become its block, its own train gone if `emptied`. */
  function ShiftedView(v: View, z: Zone, to: Position, block: Block, emptied: bool): View {
    v.(approaching := (v.approaching && !emptied) || to == Position(z, Approaching),
       standing := (v.standing && !emptied) || to == Position(z, Standing),
       between := (v.between && !emptied) || to == Position(z, Between),
       spanning := (v.spanning && !emptied) || to == Position(z, Spanning),
       happened := block.happened, read := block.read,
       seen := block.seen, due := block.due > 0, acted := block.acted, copy := block.copy,
       mayGo := v.mayGo && (block.acted || block.due > 0))
  }

  /** The train here, if any, has not been decided on. */
  predicate Undecided(b: Block) {
    b.due == 0 && !b.acted
  }

  /** `c` has the notes of `b` on whether its train has been decided on, or none. */
  predicate KeptOrDropped(b: Block, c: Block) {
    (c.due == b.due && c.acted == b.acted) || Undecided(c)
  }

  lemma ShiftedViews(s: World, t: nat, to: Position, here: Block, ahead: Block)
    requires t < |s.trains| && DistinctZones(s)
    requires to.zone == s.trains[t].zone || (to.zone == s.trains[t].zone.Next() && !Home(s, to.zone))
    requires KeptOrDropped(s.blocks.Get(s.trains[t].zone), here)
    requires KeptOrDropped(s.blocks.Get(s.trains[t].zone.Next()), ahead)
    ensures var s' := Shifted(s, t, to, here, ahead);
            var z := s.trains[t].zone;
            && ChangedOnly(s, s', z, z.Next()) && DistinctZones(s')
            && s'.blocks.Get(z) == here && s'.blocks.Get(z.Next()) == ahead
            && ViewOf(s', z) == ShiftedView(ViewOf(s, z), z, to, here, true)
            && ViewOf(s', z.Next()) == ShiftedView(ViewOf(s, z.Next()), z.Next(), to, ahead, false)
  {
    hide ObeyAll, Free, BrakeClosed;
    var z := s.trains[t].zone;
    RoundTheRing(z);
    MovedOn(s, t, to);
    StaysDistinct(s, t, to);
    PutGet(s.blocks, z, here);
    PutGet(Put(s.blocks, z, here), z.Next(), ahead);
  }

  lemma ViewRecorded(s: World, z: Zone)
    requires Inv(s)
    ensures Recorded(s.blocks.Get(z)) && Recorded(s.blocks.Get(z.Next()))
    ensures ViewOf(s, z).happened == s.blocks.Get(z).happened && ViewOf(s, z).read == s.blocks.Get(z).read
    ensures ViewOf(s, z.Next()).happened == s.blocks.Get(z.Next()).happened
    ensures ViewOf(s, z.Next()).read == s.blocks.Get(z.Next()).read
    ensures ViewOf(s, z).copy == s.blocks.Get(z).copy && ViewOf(s, z.Next()).copy == s.blocks.Get(z.Next()).copy
    ensures ViewOf(s, z).seen == s.blocks.Get(z).seen && ViewOf(s, z).acted == s.blocks.Get(z).acted
    ensures ViewOf(s, z).due == (s.blocks.Get(z).due > 0)
    ensures ViewOf(s, z.Next()).due == (s.blocks.Get(z.Next()).due > 0)
    ensures ViewOf(s, z.Next()).seen == s.blocks.Get(z.Next()).seen
    ensures ViewOf(s, z.Next()).acted == s.blocks.Get(z.Next()).acted
  {
    hide Recorded;
  }

  /** Train `t` is the only one in its zone. */
  lemma TrainView(s: World, t: nat)
    requires Inv(s) && t < |s.trains|
    ensures var p := s.trains[t];
            var v := ViewOf(s, p.zone);
            && v.approaching == (p.phase == Approaching) && v.standing == (p.phase == Standing)
            && v.between == (p.phase == Between) && v.spanning == (p.phase == Spanning)
  {
    MovedOn(s, t, s.trains[t]);
    assert s.trains[t] in s.trains;
    hide Settled, MayGo, Free, BrakeClosed;
  }

  /** What has been obeyed and is free now may go. */
  lemma FreeMayGo(s: World, z: Zone)
    requires Inv(s) && s.blocks.Get(z).acted && Free(z, s.actuators)
    ensures ViewOf(s, z).mayGo
  {
    RingAt(s, z);
    hide Free, Settled, BrakeClosed, On;
  }

  /** Moving a train keeps the invariant if the rules hold of the views it leaves behind. */
  lemma ShiftKeeps(s: World, t: nat, to: Position, here: Block, ahead: Block)
    requires Inv(s) && t < |s.trains| && Recorded(here) && Recorded(ahead)
    requires KeptOrDropped(s.blocks.Get(s.trains[t].zone), here)
    requires KeptOrDropped(s.blocks.Get(s.trains[t].zone.Next()), ahead)
    requires to.zone == s.trains[t].zone || (to.zone == s.trains[t].zone.Next() && !ViewOf(s, to.zone).Home())
    requires var z := s.trains[t].zone;
             Ring(ShiftedView(ViewOf(s, z), z, to, here, true),
                  ShiftedView(ViewOf(s, z.Next()), z.Next(), to, ahead, false),
                  ViewOf(s, z.Next().Next()), ViewOf(s, z.Prev()))
    ensures Inv(Shifted(s, t, to, here, ahead))
  {
    assert ViewOf(s, to.zone).Home() == Home(s, to.zone);
    ShiftedViews(s, t, to, here, ahead);
    hide ViewOf, ShiftedView, Shifted, Home, Ring, DistinctZones, ChangedOnly, Recorded;
    Reassemble(s, Shifted(s, t, to, here, ahead), s.trains[t].zone);
  }

  /** The view agrees with the block. */
  predicate Fits(v: View, b: Block) {
    && v.happened == b.happened && v.read == b.read
    && v.seen == b.seen && v.due == (b.due > 0) && v.acted == b.acted && v.copy == b.copy
    && (v.mayGo ==> v.due || v.acted)
  }

  lemma ArriveViews(v: View, b: Block, w: View, c: Block, z: Zone)
    requires Fits(v, b) && Fits(w, c) && v.approaching && !v.standing && !v.between && !v.spanning
    ensures ShiftedView(v, z, Position(z, Standing), Emit(Unseen(b), RiseSecond), true)
            == v.(approaching := false, standing := true,
                  happened := v.happened + 1, seen := false, due := false, acted := false, mayGo := false)
    ensures ShiftedView(w, z.Next(), Position(z, Standing), c, false) == w
  {
  }

  lemma RearFirstViews(v: View, b: Block, w: View, c: Block, z: Zone)
    requires Fits(v, b) && Fits(w, c) && v.standing && !v.approaching && !v.between && !v.spanning
    ensures ShiftedView(v, z, Position(z, Between), Emit(Unseen(b), FallSecond), true)
            == v.(standing := false, between := true,
                  happened := v.happened + 1, seen := false, due := false, acted := false, mayGo := false)
    ensures ShiftedView(w, z.Next(), Position(z, Between), c, false) == w
  {
  }

  lemma FrontFirstViews(v: View, b: Block, w: View, c: Block, z: Zone)
    requires Fits(v, b) && Fits(w, c) && v.standing && !v.approaching && !v.between && !v.spanning
    ensures ShiftedView(v, z, Position(z, Spanning), Unseen(b), true)
            == v.(standing := false, spanning := true, seen := false, due := false, acted := false, mayGo := false)
    ensures ShiftedView(w, z.Next(), Position(z, Spanning), Emit(c, RiseFirst), false) == w.(happened := w.happened + 1)
  {
  }

  lemma FrontCompletesViews(v: View, b: Block, w: View, c: Block, z: Zone)
    requires Fits(v, b) && Fits(w, c) && v.between && !v.approaching && !v.standing && !v.spanning
    ensures ShiftedView(v, z, Position(z.Next(), Approaching), b, true) == v.(between := false)
    ensures ShiftedView(w, z.Next(), Position(z.Next(), Approaching), Emit(c, RiseFirst), false)
            == w.(approaching := true, happened := w.happened + 1)
  {
  }

  lemma RearCompletesViews(v: View, b: Block, w: View, c: Block, z: Zone)
    requires Fits(v, b) && Fits(w, c) && v.spanning && !v.approaching && !v.standing && !v.between
    ensures ShiftedView(v, z, Position(z.Next(), Approaching), Emit(b, FallSecond), true)
            == v.(spanning := false, happened := v.happened + 1)
    ensures ShiftedView(w, z.Next(), Position(z.Next(), Approaching), c, false) == w.(approaching := true)
  {
  }

  /** What every train step starts from. */
  lemma Before(s: World, t: nat)
    requires Inv(s) && t < |s.trains|
    ensures var p := s.trains[t];
            var v, w := ViewOf(s, p.zone), ViewOf(s, p.zone.Next());
            var b, c := s.blocks.Get(p.zone), s.blocks.Get(p.zone.Next());
            && Fits(v, b) && Fits(w, c) && Recorded(b) && Recorded(c) && Recorded(Unseen(b))
            && v.approaching == (p.phase == Approaching) && v.standing == (p.phase == Standing)
            && v.between == (p.phase == Between) && v.spanning == (p.phase == Spanning)
            && Ring(v, w, ViewOf(s, p.zone.Next().Next()), ViewOf(s, p.zone.Prev()))
  {
    TrainView(s, t);
    ViewRecorded(s, s.trains[t].zone);
    RingAt(s, s.trains[t].zone);
    hide Inv, ViewOf, Ring;
  }

  lemma ArriveKeeps(s: World, t: nat)
    requires Inv(s) && Enabled(s, Arrive(t))
    ensures Inv(Next(s, Arrive(t)))
  {
    Before(s, t);
    hide Shifted, ViewOf, Inv, ShiftedView, Ring, Emit, Recorded, Unseen;
    var z := s.trains[t].zone;
    var v, w := ViewOf(s, z), ViewOf(s, z.Next());
    var b, c := s.blocks.Get(z), s.blocks.Get(z.Next());
    ArriveRules(v, w, ViewOf(s, z.Next().Next()), ViewOf(s, z.Prev()));
    ArriveViews(v, b, w, c, z);
    EmitRecorded(Unseen(b), RiseSecond);
    ShiftKeeps(s, t, Position(z, Standing), Emit(Unseen(b), RiseSecond), c);
  }

  lemma Departing(s: World, step: Step, t: nat)
    requires Allowed(s, step) && (step == RearFirst(t) || step == FrontFirst(t))
    ensures t < |s.trains| && s.trains[t].phase == Standing
    ensures Free(s.trains[t].zone, s.actuators) && s.blocks.Get(s.trains[t].zone).acted
  {
    hide Free;
  }

  lemma RearFirstKeeps(s: World, t: nat)
    requires Inv(s) && Allowed(s, RearFirst(t))
    ensures Inv(Next(s, RearFirst(t)))
  {
    Departing(s, RearFirst(t), t);
    Before(s, t);
    FreeMayGo(s, s.trains[t].zone);
    hide Allowed, Shifted, ViewOf, Inv, ShiftedView, Ring, Emit, Recorded, Unseen, Free;
    var z := s.trains[t].zone;
    var v, w := ViewOf(s, z), ViewOf(s, z.Next());
    var b, c := s.blocks.Get(z), s.blocks.Get(z.Next());
    RearFirstRules(v, w, ViewOf(s, z.Next().Next()), ViewOf(s, z.Prev()));
    RearFirstViews(v, b, w, c, z);
    EmitRecorded(Unseen(b), FallSecond);
    ShiftKeeps(s, t, Position(z, Between), Emit(Unseen(b), FallSecond), c);
  }

  lemma FrontFirstShifts(s: World, t: nat)
    requires Inv(s) && t < |s.trains| && s.trains[t].phase == Standing
    requires Free(s.trains[t].zone, s.actuators) && s.blocks.Get(s.trains[t].zone).acted
    ensures var z := s.trains[t].zone;
            Inv(Shifted(s, t, Position(z, Spanning), Unseen(s.blocks.Get(z)), Emit(s.blocks.Get(z.Next()), RiseFirst)))
  {
    Before(s, t);
    FreeMayGo(s, s.trains[t].zone);
    hide Shifted, ViewOf, Inv, ShiftedView, Ring, Emit, Recorded, Unseen, Free;
    var z := s.trains[t].zone;
    var v, w := ViewOf(s, z), ViewOf(s, z.Next());
    var b, c := s.blocks.Get(z), s.blocks.Get(z.Next());
    FrontFirstRules(v, w, ViewOf(s, z.Next().Next()), ViewOf(s, z.Prev()));
    FrontFirstViews(v, b, w, c, z);
    EmitRecorded(c, RiseFirst);
    ShiftKeeps(s, t, Position(z, Spanning), Unseen(b), Emit(c, RiseFirst));
  }

  lemma FrontFirstKeeps(s: World, t: nat)
    requires Inv(s) && Allowed(s, FrontFirst(t))
    ensures Inv(Next(s, FrontFirst(t)))
  {
    Departing(s, FrontFirst(t), t);
    hide Shifted, Inv, Emit, Unseen, Free, Handover, FastController, CommandingMode;
    var z := s.trains[t].zone;
    assert Next(s, FrontFirst(t))
           == Shifted(s, t, Position(z, Spanning), Unseen(s.blocks.Get(z)), Emit(s.blocks.Get(z.Next()), RiseFirst));
    hide *;
    FrontFirstShifts(s, t);
  }

  lemma FrontCompletesKeeps(s: World, t: nat)
    requires Inv(s) && Enabled(s, Complete(t)) && s.trains[t].phase == Between
    ensures Inv(Next(s, Complete(t)))
  {
    Before(s, t);
    hide Shifted, ViewOf, Inv, ShiftedView, Ring, Emit, Recorded, Unseen, Free;
    var z := s.trains[t].zone;
    var v, w := ViewOf(s, z), ViewOf(s, z.Next());
    var b, c := s.blocks.Get(z), s.blocks.Get(z.Next());
    FrontCompletesRules(v, w, ViewOf(s, z.Next().Next()), ViewOf(s, z.Prev()));
    FrontCompletesViews(v, b, w, c, z);
    EmitRecorded(c, RiseFirst);
    ShiftKeeps(s, t, Position(z.Next(), Approaching), b, Emit(c, RiseFirst));
  }

  lemma RearCompletesKeeps(s: World, t: nat)
    requires Inv(s) && Enabled(s, Complete(t)) && s.trains[t].phase == Spanning
    ensures Inv(Next(s, Complete(t)))
  {
    Before(s, t);
    hide Shifted, ViewOf, Inv, ShiftedView, Ring, Emit, Recorded, Unseen, Free;
    var z := s.trains[t].zone;
    var v, w := ViewOf(s, z), ViewOf(s, z.Next());
    var b, c := s.blocks.Get(z), s.blocks.Get(z.Next());
    RearCompletesRules(v, w, ViewOf(s, z.Next().Next()), ViewOf(s, z.Prev()));
    RearCompletesViews(v, b, w, c, z);
    EmitRecorded(b, FallSecond);
    ShiftKeeps(s, t, Position(z.Next(), Approaching), Emit(b, FallSecond), c);
  }

  // ------------------------------------------------------------------------------ monitor steps

  /** What every monitor step starts from. */
  lemma BeforeAt(s: World, z: Zone)
    requires Inv(s)
    ensures var v, w := ViewOf(s, z), ViewOf(s, z.Next());
            var b, c := s.blocks.Get(z), s.blocks.Get(z.Next());
            && Fits(v, b) && Fits(w, c) && Recorded(b) && Recorded(c) && v.between == On(s, z, Between)
            && Ring(v, w, ViewOf(s, z.Next().Next()), ViewOf(s, z.Prev()))
  {
    ViewRecorded(s, z);
    RingAt(s, z);
    assert ViewOf(s, z).between == On(s, z, Between);
    hide Inv, ViewOf, Ring;
  }

  /** A monitor or a stray edge leaves alone what the control thread and the line note down. */
  predicate SameNotes(b: Block, c: Block) {
    b.seen == c.seen && b.due == c.due && b.acted == c.acted && b.copy == c.copy
  }

  lemma ReplacedView(s: World, z: Zone, b: Block)
    requires Inv(s)
    requires SameNotes(b, s.blocks.Get(z))
    ensures var s' := Replaced(s, z, b);
            && ChangedOnly(s, s', z, z.Next()) && DistinctZones(s')
            && s'.blocks.Get(z) == b && s'.blocks.Get(z.Next()) == s.blocks.Get(z.Next())
            && ViewOf(s', z) == ViewOf(s, z).(happened := b.happened, read := b.read)
            && ViewOf(s', z.Next()) == ViewOf(s, z.Next())
  {
    hide RingFrom, AllRecorded, Sends, ObeyAll, Free, BrakeClosed;
    RoundTheRing(z);
    PutGet(s.blocks, z, b);
  }

  /** A monitor or a stray edge changes one block; the view changes only in its edge counts. */
  lemma MonitorKeeps(s: World, z: Zone, b: Block)
    requires Inv(s) && Recorded(b)
    requires SameNotes(b, s.blocks.Get(z))
    requires Ring(ViewOf(s, z).(happened := b.happened, read := b.read), ViewOf(s, z.Next()),
                  ViewOf(s, z.Next().Next()), ViewOf(s, z.Prev()))
    ensures Inv(Replaced(s, z, b))
  {
    BeforeAt(s, z);
    hide ViewOf, Ring, Recorded, ChangedOnly, Replaced, DistinctZones, Inv;
    ReplacedView(s, z, b);
    Reassemble(s, Replaced(s, z, b), z);
  }

  lemma StrayKeeps(s: World, z: Zone)
    requires Inv(s)
    ensures Inv(Replaced(s, z, s.blocks.Get(z).(queue := s.blocks.Get(z).queue + [FallFirst])))
  {
    BeforeAt(s, z);
    hide Inv, Ring, Recorded, ViewOf, Replaced;
    var b := s.blocks.Get(z);
    var v := ViewOf(s, z);
    StrayRecorded(b);
    assert v.(happened := b.happened, read := b.read) == v;
    MonitorKeeps(s, z, b.(queue := b.queue + [FallFirst]));
  }

  lemma FailedReadKeeps(s: World, z: Zone)
    requires Inv(s)
    ensures Inv(Replaced(s, z, Polled(s.blocks.Get(z), Batch([]))))
  {
    BeforeAt(s, z);
    hide Inv, Ring, ViewOf, Replaced;
    var b := s.blocks.Get(z);
    var v := ViewOf(s, z);
    assert Recorded(Polled(b, Batch([])));
    assert v.(happened := b.happened, read := b.read) == v;
    hide Recorded;
    MonitorKeeps(s, z, Polled(b, Batch([])));
  }

  lemma ReadKeeps(s: World, z: Zone)
    requires Inv(s) && s.blocks.Get(z).queue != []
    ensures Inv(Replaced(s, z, AfterRead(s.blocks.Get(z))))
  {
    BeforeAt(s, z);
    hide Inv, Rules, ViewOf, Replaced, PollStep;
    var b := s.blocks.Get(z);
    var v := ViewOf(s, z);
    ReadRecorded(b);
    assert b.happened <= 3;
    hide Recorded;
    if b.queue[0] == FallFirst {
      assert v.(happened := AfterRead(b).happened, read := AfterRead(b).read) == v;
    } else {
      ReadRules(v, ViewOf(s, z.Next()), ViewOf(s, z.Next().Next()), ViewOf(s, z.Prev()));
      assert v.(happened := AfterRead(b).happened, read := AfterRead(b).read) == v.(read := v.read + 1);
    }
    MonitorKeeps(s, z, AfterRead(b));
  }

  lemma QuietKeeps(s: World, z: Zone)
    requires Inv(s) && Handover(s, QuietPoll(z))
    ensures Inv(Replaced(s, z, AfterQuiet(s.blocks.Get(z))))
  {
    BeforeAt(s, z);
    hide Inv, Rules, ViewOf, Replaced, PollStep, Recorded;
    var b := s.blocks.Get(z);
    var c := s.blocks.Get(z.Next());
    var v := ViewOf(s, z);
    QuietRecorded(b);
    if WouldVacate(b.monitor) {
      if c.happened >= 1 && c.read == 0 {
        UnreadArrival(c);
      }
      VacateRules(v, ViewOf(s, z.Next()), ViewOf(s, z.Next().Next()), ViewOf(s, z.Prev()));
      assert v.(happened := AfterQuiet(b).happened, read := AfterQuiet(b).read) == v.(happened := 0, read := 0);
    } else {
      assert v.(happened := AfterQuiet(b).happened, read := AfterQuiet(b).read) == v;
    }
    MonitorKeeps(s, z, AfterQuiet(b));
  }

  // ------------------------------------------------------------------------------ control steps

  lemma CopyTargetFacts(pc: Pc)
    requires pc != AskMode && pc != Sending
    ensures !Copied(pc, CopyTarget(pc)) && Copied(AfterCopy(pc), CopyTarget(pc)) && AfterCopy(pc) != Sending
    ensures forall y: Zone :: y != CopyTarget(pc) ==> Copied(AfterCopy(pc), y) == Copied(pc, y)
  {
  }

  function AfterCopying(s: World): World
    requires s.pc != AskMode && s.pc != Sending
  {
    var z := CopyTarget(s.pc);
    var b := s.blocks.Get(z);
    Replaced(s, z, b.(copy := b.monitor.internal, seen := On(s, z, Standing) && b.monitor.internal == Entered))
      .(pc := AfterCopy(s.pc))
  }

  lemma ShownAsRead(s: World, z: Zone)
    requires Inv(s)
    ensures s.blocks.Get(z).monitor.internal == StateAfter(s.blocks.Get(z).read)
  {
    hide RingFrom, DistinctZones, Sends;
    assert Recorded(s.blocks.Get(z));
  }

  lemma CopyingBlock(s: World)
    requires s.pc != AskMode && s.pc != Sending
    ensures var z, s' := CopyTarget(s.pc), AfterCopying(s);
            var b := s.blocks.Get(z);
            && s'.blocks.Get(z)
               == b.(copy := b.monitor.internal, seen := On(s, z, Standing) && b.monitor.internal == Entered)
            && s'.trains == s.trains && s'.pending == s.pending && s'.actuators == s.actuators
            && Copied(s'.pc, z)
  {
    hide On, Copied;
    CopyTargetFacts(s.pc);
    PutGet(s.blocks, CopyTarget(s.pc), AfterCopying(s).blocks.Get(CopyTarget(s.pc)));
  }

  lemma CopyingView(s: World)
    requires s.pc != AskMode && s.pc != Sending
    ensures var z := CopyTarget(s.pc);
            var v, shown := ViewOf(s, z), s.blocks.Get(z).monitor.internal;
            ViewOf(AfterCopying(s), z) == v.(copied := true, copy := shown, seen := v.standing && shown == Entered)
  {
    CopyingBlock(s);
    hide AfterCopying, ObeyAll, Free, BrakeClosed, Copied, AfterCopy, CopyTarget;
  }

  lemma CopyViewThere(s: World)
    requires Inv(s) && s.pc != AskMode && s.pc != Sending
    ensures var z := CopyTarget(s.pc);
            ViewOf(AfterCopying(s), z) == CopiedView(ViewOf(s, z)) && !ViewOf(s, z).copied
  {
    var z := CopyTarget(s.pc);
    CopyingView(s);
    CopyTargetFacts(s.pc);
    assert ViewOf(s, z).copied == Copied(s.pc, z);
    hide Inv, Ring, Recorded, ViewOf, AfterCopying, Copied, AfterCopy, CopyTarget;
    BeforeAt(s, z);
    ShownAsRead(s, z);
  }

  lemma CopyViewElsewhere(s: World, y: Zone)
    requires s.pc != AskMode && s.pc != Sending && y != CopyTarget(s.pc)
    ensures ViewOf(AfterCopying(s), y) == ViewOf(s, y)
  {
    CopyTargetFacts(s.pc);
    PutGet(s.blocks, CopyTarget(s.pc), AfterCopying(s).blocks.Get(CopyTarget(s.pc)));
    hide ObeyAll, Free, BrakeClosed, Copied, AfterCopy, CopyTarget;
  }

  lemma CopyRecorded(s: World)
    requires Inv(s) && s.pc != AskMode && s.pc != Sending
    ensures AllRecorded(AfterCopying(s)) && DistinctZones(AfterCopying(s)) && Sends(AfterCopying(s))
  {
    var s' := AfterCopying(s);
    CopyTargetFacts(s.pc);
    hide RingFrom, CopyTarget, AfterCopy;
    PutGet(s.blocks, CopyTarget(s.pc), s'.blocks.Get(CopyTarget(s.pc)));
    forall y: Zone
      ensures Recorded(s'.blocks.Get(y))
    {
      assert Recorded(s.blocks.Get(y));
    }
  }

  lemma CopyKeeps(s: World)
    requires Inv(s) && s.pc != AskMode && s.pc != Sending
    ensures Inv(AfterCopying(s))
  {
    var s' := AfterCopying(s);
    var z := CopyTarget(s.pc);
    RoundTheRing(z);
    CopyViewThere(s);
    CopyViewElsewhere(s, z.Next());
    CopyViewElsewhere(s, z.Next().Next());
    CopyViewElsewhere(s, z.Prev());
    CopyRecorded(s);
    CopyTargetFacts(s.pc);
    BeforeAt(s, z);
    var v := ViewOf(s, z);
    assert v.read <= v.happened <= 3;
    hide AllRecorded, DistinctZones, Sends, Recorded, ViewOf, AfterCopying, CopyTarget;
    assert !v.seen;
    hide Rules;
    CopyRules(v, ViewOf(s, z.Next()), ViewOf(s, z.Next().Next()), ViewOf(s, z.Prev()));
    RingFromAnywhere(s', z, Station);
  }

  // ----------------------------------------------------------------- deciding what to send

  /** No two of the commands go to the same actuator. */
  ghost predicate OneEach(ms: seq<Message>) {
    forall i, j, z: Zone :: 0 <= i < j < |ms| && Addresses(ms[i], z) ==> !Addresses(ms[j], z)
  }

  /** Every command in `ms` is for `z`, and there is at most one. */
  ghost predicate OnlyFor(ms: seq<Message>, z: Zone) {
    && (forall i, y: Zone :: 0 <= i < |ms| && Addresses(ms[i], y) ==> y == z)
    && OneEach(ms)
  }

  ghost predicate Silent(ms: seq<Message>, z: Zone) {
    forall i :: 0 <= i < |ms| ==> !Addresses(ms[i], z)
  }

  lemma OneEachAppend(ms: seq<Message>, ns: seq<Message>, z: Zone)
    requires OneEach(ms) && Silent(ms, z) && OnlyFor(ns, z)
    ensures OneEach(ms + ns)
    ensures forall y: Zone :: y != z && Silent(ms, y) ==> Silent(ms + ns, y)
  {
    hide Addresses;
    var all := ms + ns;
    forall i, j, y: Zone | 0 <= i < j < |all| && Addresses(all[i], y)
      ensures !Addresses(all[j], y)
    {
    }
  }

  lemma MotorsOnlyFor(z: Snapshot, releaseGo: byte)
    ensures OnlyFor(LiftHillAutomatic(z), LiftHill) && OnlyFor(LiftHillManual(z, releaseGo), LiftHill)
    ensures OnlyFor([LiftHillStop], LiftHill) && OnlyFor(LiftHillSafe(z), LiftHill)
    ensures OnlyFor(StationAutomatic(z, releaseGo).sent, Station) && OnlyFor([StopStation], Station)
    ensures OnlyFor(StationSafe(z, releaseGo).sent, Station)
  {
  }

  lemma ServosOnlyFor(z: Snapshot)
    ensures OnlyFor(PreStationRunning(z), PreStation) && OnlyFor(PreStationHalted(z), PreStation)
    ensures OnlyFor(RideRunning(z), Ride) && OnlyFor(RideHalted(z), Ride)
  {
  }

  lemma ManualOnlyFor(z: Snapshot, releaseGo: byte, reply: byte)
    ensures OnlyFor(StationManual(z, releaseGo, reply).sent, Station)
  {
  }

  lemma FourSections(hill: seq<Message>, station: seq<Message>, pre: seq<Message>, ride: seq<Message>)
    requires OnlyFor(hill, LiftHill) && OnlyFor(station, Station) && OnlyFor(pre, PreStation) && OnlyFor(ride, Ride)
    ensures OneEach([RequestButtonState] + (hill + station + pre + ride))
  {
    var poll := [RequestButtonState];
    assert OneEach(poll) && forall y: Zone :: Silent(poll, y);
    hide OnlyFor, Silent, OneEach;
    OneEachAppend(poll, hill, LiftHill);
    OneEachAppend(poll + hill, station, Station);
    OneEachAppend(poll + hill + station, pre, PreStation);
    OneEachAppend(poll + hill + station + pre, ride, Ride);
    assert poll + (hill + station + pre + ride) == poll + hill + station + pre + ride;
  }

  lemma SentInOneEach(m: Memory, c: Cycle)
    requires Running(ModeIn(m, c)) || Halted(ModeIn(m, c))
    ensures OneEach(SentIn(m, c))
  {
    var state, z, go, reply := ModeIn(m, c), c.zones, m.releaseGo, StartFromReply(1, c.startReply);
    MotorsOnlyFor(z, go);
    ServosOnlyFor(z);
    ManualOnlyFor(z, go, reply);
    hide ModeIn, StartFromReply, LiftHillAutomatic, LiftHillManual, LiftHillSafe, StationAutomatic, StationManual,
         StationSafe,
         PreStationRunning, PreStationHalted, RideRunning, RideHalted, OnlyFor, OneEach;
    if state == AUTOMATIC {
      FourSections(LiftHillAutomatic(z), StationAutomatic(z, go).sent, PreStationRunning(z), RideRunning(z));
    } else if state == MANUAL {
      FourSections(LiftHillManual(z, go), StationManual(z, go, reply).sent, PreStationRunning(z), RideRunning(z));
    } else if state == STOP {
      FourSections([LiftHillStop], [StopStation], PreStationHalted(z), RideHalted(z));
    } else {
      FourSections(LiftHillSafe(z), StationSafe(z, go).sent, PreStationHalted(z), RideHalted(z));
    }
  }

  lemma {:induction false} Untouched(ms: seq<Message>, a: Actuators, z: Zone)
    requires Silent(ms, z)
    ensures ObeyAll(ms, a).Get(z) == a.Get(z)
  {
    if ms != [] {
      assert !Addresses(ms[0], z);
      assert Silent(ms[1..], z);
      Untouched(ms[1..], Obey(ms[0], a), z);
    }
  }

  lemma FreeBy(z: Zone, a: Actuators, b: Actuators)
    requires a.Get(z) == b.Get(z)
    ensures Free(z, a) == Free(z, b)
  {
  }

  lemma OneEachRest(ms: seq<Message>)
    requires ms != [] && OneEach(ms)
    ensures OneEach(ms[1..]) && forall z: Zone :: Addresses(ms[0], z) ==> Silent(ms[1..], z)
  {
    hide Addresses;
    forall z: Zone | Addresses(ms[0], z)
      ensures Silent(ms[1..], z)
    {
      forall i | 0 <= i < |ms[1..]|
        ensures !Addresses(ms[1..][i], z)
      {
        assert ms[1..][i] == ms[i + 1];
      }
    }
  }

  /** While nothing addresses a zone, it is free throughout or never. */
  lemma {:induction false} NeverElse(z: Zone, ms: seq<Message>, a: Actuators)
    requires Silent(ms, z)
    ensures EverFree(z, ms, a, 0) ==> Free(z, a)
  {
    if ms != [] {
      assert !Addresses(ms[0], z) && Silent(ms[1..], z);
      FreeBy(z, a, Obey(ms[0], a));
      hide Silent, Free, Obey;
      NeverElse(z, ms[1..], Obey(ms[0], a));
    }
  }

  /** With one command at most to each actuator, a zone is free before all of them or after, if ever. */
  lemma {:induction false} BeforeOrAfter(z: Zone, ms: seq<Message>, a: Actuators)
    requires OneEach(ms)
    ensures EverFree(z, ms, a, 0) ==> Free(z, a) || Free(z, ObeyAll(ms, a))
  {
    if ms != [] {
      OneEachRest(ms);
      var b := Obey(ms[0], a);
      if Addresses(ms[0], z) {
        NeverElse(z, ms[1..], b);
        Untouched(ms[1..], b, z);
        FreeBy(z, b, ObeyAll(ms, a));
      } else {
        FreeBy(z, a, b);
        hide OneEach, Free, Obey;
        BeforeOrAfter(z, ms[1..], b);
      }
    }
  }

  /** Fewer to wait for, more moments to be free at. */
  lemma {:induction false} EverFreeSooner(z: Zone, ms: seq<Message>, a: Actuators, d: nat)
    requires EverFree(z, ms, a, d)
    ensures EverFree(z, ms, a, 0)
  {
    hide Free, Obey;
    if ms != [] && d > 0 {
      EverFreeSooner(z, ms[1..], Obey(ms[0], a), d - 1);
    }
  }

  lemma {:induction false} EverFreeAtEnd(z: Zone, ms: seq<Message>, a: Actuators, d: nat)
    requires d <= |ms| && Free(z, ObeyAll(ms, a))
    ensures EverFree(z, ms, a, d)
  {
    hide Free, Obey;
    if ms != [] {
      EverFreeAtEnd(z, ms[1..], Obey(ms[0], a), if d > 0 then d - 1 else 0);
    }
  }

  lemma {:induction false} OnlyAtEnd(z: Zone, ms: seq<Message>, a: Actuators)
    ensures EverFree(z, ms, a, |ms|) ==> Free(z, ObeyAll(ms, a))
  {
    hide Free, Obey;
    if ms != [] {
      OnlyAtEnd(z, ms[1..], Obey(ms[0], a));
    }
  }

  /** What comes after `ms` adds moments to be free at only after them. */
  lemma {:induction false} EverFreeAppend(z: Zone, ms: seq<Message>, ns: seq<Message>, a: Actuators, d: nat)
    requires EverFree(z, ms + ns, a, d)
    ensures EverFree(z, ms, a, d) || EverFree(z, ns, ObeyAll(ms, a), 0)
  {
    hide Free, Obey;
    if ms == [] {
      assert ms + ns == ns;
      EverFreeSooner(z, ns, a, d);
    } else if !(d == 0 && Free(z, a)) {
      assert (ms + ns)[1..] == ms[1..] + ns;
      EverFreeAppend(z, ms[1..], ns, Obey(ms[0], a), if d > 0 then d - 1 else 0);
    }
  }

  function AfterHearing(s: World, c: Cycle): World {
    var pending := s.pending + SentIn(s.memory, c);
    s.(pc := Sending, memory := AfterCycle(s.memory, c), pending := pending, blocks := AllDecided(s.blocks, |pending|))
  }

  lemma HearSettles(s: World, c: Cycle)
    ensures Settled(AfterHearing(s, c)) == ObeyAll(SentIn(s.memory, c), Settled(s))
    ensures Settled(AfterHearing(s, c))
            == Effect(ModeIn(s.memory, c), c.zones, s.memory.releaseGo, StartFromReply(1, c.startReply), Settled(s))
  {
    ObeyAllAppend(s.pending, SentIn(s.memory, c), s.actuators);
    CycleEffectWithPoll(s.memory, c, Settled(s));
    CycleEffect(ModeIn(s.memory, c), c.zones, s.memory.releaseGo, StartFromReply(1, c.startReply), Settled(s));
    hide SentIn, AfterCycle, ModeIn, StartFromReply, Effect, Decide, ObeyAll;
  }

  /** A decision lets go only whom it leaves free, and only a train that has been seen. */
  lemma DecidedMayGo(s: World, c: Cycle, z: Zone)
    requires Running(ModeIn(s.memory, c)) || Halted(ModeIn(s.memory, c))
    requires s.blocks.Get(z).due <= |s.pending|
    ensures var s', b := AfterHearing(s, c), s.blocks.Get(z);
            MayGo(s', z) ==> MayGo(s, z) || (Free(z, Settled(s')) && (b.seen || b.due > 0 || b.acted))
  {
    var s', b := AfterHearing(s, c), s.blocks.Get(z);
    var ns := SentIn(s.memory, c);
    assert s'.pending == s.pending + ns && s'.actuators == s.actuators;
    assert s'.blocks.Get(z) == DecidedBlock(b, |s'.pending|);
    SentInOneEach(s.memory, c);
    HearSettles(s, c);
    hide AfterHearing, SentIn, ModeIn, OneEach, Effect, Free, ObeyAll;
    if MayGo(s', z) && !MayGo(s, z) {
      if b.due == 0 && !b.acted {
        OnlyAtEnd(z, s'.pending, s.actuators);
      } else {
        LetGoAnew(z, s.pending, ns, s.actuators, b.due);
      }
    }
  }

  lemma LetGoAnew(z: Zone, ms: seq<Message>, ns: seq<Message>, a: Actuators, d: nat)
    requires OneEach(ns) && d <= |ms| && EverFree(z, ms + ns, a, d) && !EverFree(z, ms, a, d)
    ensures Free(z, ObeyAll(ns, ObeyAll(ms, a)))
  {
    hide *;
    EverFreeAppend(z, ms, ns, a, d);
    BeforeOrAfter(z, ns, ObeyAll(ms, a));
    if Free(z, ObeyAll(ms, a)) {
      EverFreeAtEnd(z, ms, a, d);
    }
  }

  lemma HearingView(s: World, c: Cycle, z: Zone)
    requires s.pc == AskMode
    ensures var s', v := AfterHearing(s, c), ViewOf(s, z);
            ViewOf(s', z) == v.(due := v.due || (v.seen && !v.acted), mayGo := MayGo(s', z),
                                willBeFree := Free(z, Settled(s')), willBeClosed := BrakeClosed(z, Settled(s')))
  {
    var s' := AfterHearing(s, c);
    assert |s'.pending| > 0;
    assert s'.blocks.Get(z) == DecidedBlock(s.blocks.Get(z), |s'.pending|) && Copied(s'.pc, z) && Copied(s.pc, z);
    assert s'.trains == s.trains;
    hide Settled, AfterHearing, Free, BrakeClosed, Copied, MayGo;
  }

  lemma AskedView(s: World, z: Zone)
    requires s.pc == AskMode
    ensures var v, b := ViewOf(s, z), s.blocks.Get(z);
            && v.copied && v.copy == Copies(s).Get(z) && v.mayGo == MayGo(s, z)
            && v.willBeFree == Free(z, Settled(s)) && v.willBeClosed == BrakeClosed(z, Settled(s))
            && v.seen == b.seen && v.due == (b.due > 0) && v.acted == b.acted
  {
    hide Settled, Free, BrakeClosed, On, MayGo;
  }

  /** A train decided on that will be free in the end may go. */
  lemma FreeAtLast(s: World, z: Zone)
    requires s.blocks.Get(z).due <= |s.pending| && Free(z, Settled(s))
    ensures s.blocks.Get(z).acted || s.blocks.Get(z).due > 0 ==> MayGo(s, z)
  {
    EverFreeAtEnd(z, s.pending, s.actuators, s.blocks.Get(z).due);
    hide Free, ObeyAll, EverFree;
  }

  lemma HearViews(s: World, c: Cycle, z: Zone)
    requires Inv(s) && s.pc == AskMode && c.zones == Copies(s)
    requires Running(ModeIn(s.memory, c)) || Halted(ModeIn(s.memory, c))
    ensures DecidedOn(ViewOf(s, z), ViewOf(AfterHearing(s, c), z), ViewOf(s, z.Next()))
    ensures ViewOf(s, z).copied
  {
    assert s.blocks.Get(z).due <= |s.pending|;
    hide Settled, SentIn, AfterHearing, ModeIn, StartFromReply, Inv, Effect, Free, BrakeClosed, Copies, Running, Halted,
         ViewOf, MayGo;
    HearSettles(s, c);
    EffectDecides(ModeIn(s.memory, c), c.zones, s.memory.releaseGo, StartFromReply(1, c.startReply), Settled(s), z);
    HearingView(s, c, z);
    DecidedMayGo(s, c, z);
    AskedView(s, z);
    AskedView(s, z.Next());
    if Free(z, Settled(s)) {
      FreeAtLast(s, z);
    }
  }

  lemma EffectDecides(mode: byte, zones: Snapshot, releaseGo: byte, reply: byte, a: Actuators, z: Zone)
    requires Running(mode) || Halted(mode)
    ensures var after := Effect(mode, zones, releaseGo, reply, a);
            && (zones.Get(z) == Entered && Free(z, after) ==>
                  zones.Get(z.Next()) == Empty || (Free(z, a) && !BrakeClosed(z, a)))
            && (zones.Get(z) != Entered ==> BrakeClosed(z, after))
  {
  }

  lemma DecidedRecorded(s: World, c: Cycle)
    requires AllRecorded(s)
    ensures AllRecorded(AfterHearing(s, c))
  {
    hide SentIn, AfterCycle;
    forall z: Zone
      ensures Recorded(AfterHearing(s, c).blocks.Get(z))
    {
      assert Recorded(s.blocks.Get(z));
    }
  }

  lemma DecidedPending(s: World, c: Cycle)
    requires Sends(s)
    ensures forall z: Zone :: AfterHearing(s, c).blocks.Get(z).due <= |AfterHearing(s, c).pending|
  {
    hide SentIn, AfterCycle;
    forall z: Zone
      ensures AfterHearing(s, c).blocks.Get(z).due <= |AfterHearing(s, c).pending|
    {
      assert s.blocks.Get(z).due <= |s.pending|;
    }
  }

  lemma HearFrame(s: World, c: Cycle)
    requires Inv(s) && s.pc == AskMode
    requires Running(ModeIn(s.memory, c)) || Halted(ModeIn(s.memory, c))
    ensures var s' := AfterHearing(s, c); Sends(s') && DistinctZones(s') && AllRecorded(s') && RingFrom(s, Station)
  {
    DecidedRecorded(s, c);
    DecidedPending(s, c);
    assert AfterHearing(s, c).trains == s.trains && AfterHearing(s, c).memory.state == ModeIn(s.memory, c);
    hide RingFrom, SentIn, ModeIn, AllRecorded, Running, Halted, AfterHearing;
  }

  lemma HearRingRules(s: World, s': World)
    requires RingFrom(s, Station) && forall z: Zone :: ViewOf(s, z).copied
    requires forall z: Zone :: DecidedOn(ViewOf(s, z), ViewOf(s', z), ViewOf(s, z.Next()))
    ensures RingFrom(s', Station)
  {
    hide ViewOf, Rules, DecidedOn, Ring;
    HearRules(ViewOf(s, Station), ViewOf(s, LiftHill), ViewOf(s, Ride), ViewOf(s, PreStation),
              ViewOf(s', Station), ViewOf(s', LiftHill), ViewOf(s', Ride), ViewOf(s', PreStation));
  }

  lemma HearRing(s: World, c: Cycle)
    requires Inv(s) && s.pc == AskMode && c.zones == Copies(s)
    requires Running(ModeIn(s.memory, c)) || Halted(ModeIn(s.memory, c))
    ensures RingFrom(AfterHearing(s, c), Station)
  {
    var s' := AfterHearing(s, c);
    HearFrame(s, c);
    hide *;
    forall z: Zone
      ensures ViewOf(s, z).copied && DecidedOn(ViewOf(s, z), ViewOf(s', z), ViewOf(s, z.Next()))
    {
      HearViews(s, c, z);
    }
    HearRingRules(s, s');
  }

  lemma HearKeeps(s: World, c: Cycle)
    requires Inv(s) && s.pc == AskMode && c.zones == Copies(s)
    requires Running(ModeIn(s.memory, c)) || Halted(ModeIn(s.memory, c))
    ensures Inv(AfterHearing(s, c))
  {
    HearFrame(s, c);
    HearRing(s, c);
    hide AfterHearing, RingFrom, Sends, DistinctZones, AllRecorded, ModeIn, Copies;
  }

  // ---------------------------------------------------------------------- obeying and ending

  function AfterObeying(s: World): World
    requires s.pending != []
  {
    s.(actuators := Obey(s.pending[0], s.actuators), pending := s.pending[1..], blocks := AllObeyed(s.blocks))
  }

  lemma ObeyedMayGo(s: World, z: Zone)
    requires s.pending != [] && MayGo(AfterObeying(s), z)
    ensures MayGo(s, z)
  {
    assert AfterObeying(s).blocks.Get(z) == ObeyedBlock(s.blocks.Get(z));
    hide Free, Obey;
  }

  lemma ObeyViews(s: World, z: Zone)
    requires s.pending != []
    ensures ObeyedOn(ViewOf(s, z), ViewOf(AfterObeying(s), z))
  {
    assert AfterObeying(s).blocks.Get(z) == ObeyedBlock(s.blocks.Get(z));
    assert Settled(AfterObeying(s)) == Settled(s);
    if MayGo(AfterObeying(s), z) {
      ObeyedMayGo(s, z);
    }
    hide Settled, Obey, BrakeClosed, Free, MayGo;
  }

  lemma ObeyFrame(s: World)
    requires Inv(s) && s.pending != []
    ensures var s' := AfterObeying(s); Sends(s') && DistinctZones(s') && AllRecorded(s')
  {
    hide RingFrom, Recorded, Obey;
    forall z: Zone
      ensures Recorded(AfterObeying(s).blocks.Get(z)) && AfterObeying(s).blocks.Get(z).due <= |s.pending| - 1
    {
      assert Recorded(s.blocks.Get(z)) && s.blocks.Get(z).due <= |s.pending|;
      ObeyedRecorded(s.blocks.Get(z));
    }
  }

  lemma ObeyedRecorded(b: Block)
    requires Recorded(b)
    ensures Recorded(ObeyedBlock(b))
  {
  }

  lemma ObeyRing(s: World)
    requires Inv(s) && s.pending != []
    ensures RingFrom(AfterObeying(s), Station)
  {
    var s' := AfterObeying(s);
    assert RingFrom(s, Station);
    hide ViewOf, Rules, ObeyedOn, Inv, AfterObeying;
    ObeyViews(s, Station);
    ObeyViews(s, LiftHill);
    ObeyViews(s, Ride);
    ObeyViews(s, PreStation);
    ObeyRules(ViewOf(s, Station), ViewOf(s, LiftHill), ViewOf(s, Ride), ViewOf(s, PreStation),
              ViewOf(s', Station), ViewOf(s', LiftHill), ViewOf(s', Ride), ViewOf(s', PreStation));
  }

  lemma ObeyKeeps(s: World)
    requires Inv(s) && s.pending != []
    ensures Inv(AfterObeying(s))
  {
    ObeyFrame(s);
    ObeyRing(s);
    hide AfterObeying, RingFrom, Sends, DistinctZones, AllRecorded;
  }

  function AfterEnding(s: World): World {
    s.(pc := CopyLiftHill, blocks := AllEnded(s.blocks))
  }

  lemma EndViews(s: World)
    requires s.pc == Sending
    ensures forall z: Zone :: ViewOf(AfterEnding(s), z) == EndedView(ViewOf(s, z))
  {
    hide Free, BrakeClosed, ObeyAll;
  }

  lemma EndFrame(s: World)
    requires Inv(s) && s.pc == Sending
    ensures AllRecorded(AfterEnding(s)) && Sends(AfterEnding(s)) && DistinctZones(AfterEnding(s))
  {
    hide RingFrom;
    forall z: Zone
      ensures Recorded(AfterEnding(s).blocks.Get(z)) && AfterEnding(s).blocks.Get(z).due <= |s.pending|
    {
      assert Recorded(s.blocks.Get(z)) && s.blocks.Get(z).due <= |s.pending|;
    }
  }

  lemma EndKeeps(s: World)
    requires Inv(s) && s.pc == Sending
    ensures Inv(AfterEnding(s))
  {
    EndViews(s);
    EndFrame(s);
    hide ViewOf, Rules, Sends, AllRecorded, DistinctZones;
    EndRules(ViewOf(s, Station), ViewOf(s, LiftHill), ViewOf(s, Ride), ViewOf(s, PreStation));
  }

  // ------------------------------------------------------------------------ the main theorems

  /** Every allowed step keeps the invariant. */
  lemma StepKeeps(s: World, step: Step)
    requires Inv(s) && Allowed(s, step)
    ensures Inv(Next(s, step))
  {
    hide Inv, Shifted, Replaced, Free, AfterQuiet, AfterRead, Emit, Unseen, EndBlock, SentIn, AfterCycle, ModeIn,
         Running,
         Halted, Copies;
    match step
    case Arrive(t) => ArriveKeeps(s, t);
    case RearFirst(t) => RearFirstKeeps(s, t);
    case FrontFirst(t) => FrontFirstKeeps(s, t);
    case Complete(t) =>
      if s.trains[t].phase == Between {
        FrontCompletesKeeps(s, t);
      } else {
        RearCompletesKeeps(s, t);
      }
    case StrayEdge(z) => StrayKeeps(s, z);
    case QuietPoll(z) => QuietKeeps(s, z);
    case FailedRead(z) => FailedReadKeeps(s, z);
    case ReadEvent(z) => ReadKeeps(s, z);
    case CopyZone => CopyKeeps(s);
    case HearMode(modeReply, startReply) => HearKeeps(s, CycleOf(s, modeReply, startReply));
    case EndCycle => EndKeeps(s);
    case ObeyNext => ObeyKeeps(s);
  }

  lemma OnePhase(s: World, z: Zone)
    requires ConsistentStart(s)
    ensures !Leaving(s, z) && !(On(s, z, Approaching) && On(s, z, Standing))
  {
    if i, j :| 0 <= i < |s.trains| && 0 <= j < |s.trains|
               && s.trains[i] == Position(z, Approaching) && s.trains[j] == Position(z, Standing) {
      if i < j {
      } else {
      }
    }
  }

  lemma StartRules(s: World, z: Zone)
    requires ConsistentStart(s)
    ensures Recorded(s.blocks.Get(z))
    ensures Rules(ViewOf(s, z.Prev()), ViewOf(s, z), ViewOf(s, z.Next()))
  {
    OnePhase(s, z);
    OnePhase(s, z.Next());
    OnePhase(s, z.Prev());
    assert PASSAGE[0..0] == [] && PASSAGE[1..1] == [] && PASSAGE[2..2] == [];
  }

  lemma RingOf(s: World)
    requires forall z: Zone :: Rules(ViewOf(s, z.Prev()), ViewOf(s, z), ViewOf(s, z.Next()))
    ensures RingFrom(s, Station)
  {
    hide Rules, ViewOf;
    assert Rules(ViewOf(s, Station.Prev()), ViewOf(s, Station), ViewOf(s, Station.Next()));
    assert Rules(ViewOf(s, LiftHill.Prev()), ViewOf(s, LiftHill), ViewOf(s, LiftHill.Next()));
    assert Rules(ViewOf(s, Ride.Prev()), ViewOf(s, Ride), ViewOf(s, Ride.Next()));
    assert Rules(ViewOf(s, PreStation.Prev()), ViewOf(s, PreStation), ViewOf(s, PreStation.Next()));
  }

  lemma StartRing(s: World)
    requires ConsistentStart(s)
    ensures RingFrom(s, Station)
  {
    hide *;
    forall z: Zone
      ensures Rules(ViewOf(s, z.Prev()), ViewOf(s, z), ViewOf(s, z.Next()))
    {
      StartRules(s, z);
    }
    RingOf(s);
  }

  lemma StartIsGood(s: World)
    requires ConsistentStart(s)
    ensures Inv(s)
  {
    StartRing(s);
    forall z: Zone
      ensures Recorded(s.blocks.Get(z))
    {
      StartRules(s, z);
    }
    hide RingFrom, FreshBlock, Recorded, On;
  }

  /** No other train belongs to the zone a spanning train has its front in. */
  lemma NobodyUnderTheFront(s: World, t: nat, u: nat)
    requires Inv(s) && t < |s.trains| && u < |s.trains| && s.trains[t].phase == Spanning
    ensures s.trains[u].zone != s.trains[t].zone.Next()
  {
    Before(s, t);
    Before(s, u);
    hide Inv, ViewOf, Tracked, Noticed, StillShown, SeenThisCycle, EmptyIsTrue, ClearedIntoEmpty, NobodyComes,
         BrakeReady,
         Overtaken, Free, Recorded;
  }

  lemma GoodIsSafe(s: World)
    requires Inv(s)
    ensures Safe(s)
  {
    assert DistinctZones(s);
    hide Inv;
    forall t, u, z: Zone | 0 <= t < u < |s.trains| && Occupies(s.trains[t], z)
      ensures !Occupies(s.trains[u], z)
    {
      assert s.trains[t].zone != s.trains[u].zone;
      if s.trains[t].phase == Spanning {
        NobodyUnderTheFront(s, t, u);
      }
      if s.trains[u].phase == Spanning {
        NobodyUnderTheFront(s, u, t);
      }
    }
  }

  lemma CrossingIsSafe(s: World, step: Step)
    requires Inv(s) && Allowed(s, step)
    ensures CrossesIntoEmpty(s, step)
  {
    if CrossesAhead(s, step) {
      var t := step.train;
      var z := s.trains[t].zone;
      Before(s, t);
      if step.FrontFirst? {
        Departing(s, step, t);
        FrontFirstRules(ViewOf(s, z), ViewOf(s, z.Next()), ViewOf(s, z.Next().Next()), ViewOf(s, z.Prev()));
      } else {
        FrontCompletesRules(ViewOf(s, z), ViewOf(s, z.Next()), ViewOf(s, z.Next().Next()), ViewOf(s, z.Prev()));
      }
      NoArrivalQueued(s.blocks.Get(z.Next()));
      forall u | 0 <= u < |s.trains|
        ensures !Occupies(s.trains[u], z.Next())
      {
        NobodyAt(s, z.Next(), u);
      }
    }
  }

  lemma TrackedHappened(behind: View, here: View, ahead: View)
    requires Tracked(behind, here, ahead) && here.Home()
    ensures here.happened >= 1 && (here.spanning ==> ahead.happened >= 1)
  {
  }

  /** Where a train is, its edges have happened. */
  lemma TrainHappened(s: World, u: nat)
    requires Inv(s) && u < |s.trains|
    ensures var p := s.trains[u];
            s.blocks.Get(p.zone).happened >= 1 && (p.phase == Spanning ==> s.blocks.Get(p.zone.Next()).happened >= 1)
  {
    Before(s, u);
    var y := s.trains[u].zone;
    var v, w, x := ViewOf(s, y), ViewOf(s, y.Next()), ViewOf(s, y.Prev());
    assert Tracked(x, v, w) && v.Home();
    hide *;
    TrackedHappened(x, v, w);
    FitsHappened(v, s.blocks.Get(y));
    FitsHappened(w, s.blocks.Get(y.Next()));
  }

  lemma FitsHappened(v: View, b: Block)
    requires Fits(v, b)
    ensures v.happened == b.happened
  {
  }

  /** A zone where nothing has happened holds nobody. */
  lemma NobodyAt(s: World, z: Zone, u: nat)
    requires Inv(s) && s.blocks.Get(z).happened == 0 && u < |s.trains|
    ensures !Occupies(s.trains[u], z)
  {
    TrainHappened(s, u);
    hide Inv;
  }

  lemma {:induction false} RunKeeps(s: World, steps: seq<Step>)
    requires Inv(s) && AllowedRun(s, steps)
    ensures Inv(After(s, steps))
    decreases steps
  {
    hide Inv, Next, Enabled, Handover, FastController, CommandingMode;
    if steps != [] {
      StepKeeps(s, steps[0]);
      RunKeeps(Next(s, steps[0]), steps[1..]);
    }
  }

  /**
   * Block safety. In every run of trains, monitors and control cycles from a consistent start, in any
   * interleaving and in all modes but MAINTENANCE, no zone ever holds two trains, and whichever
   * step comes next, a train only crosses into a zone that is recorded EMPTY and holds no train.
   */
  lemma BlockSafety(s: World, steps: seq<Step>, step: Step)
    requires ConsistentStart(s) && AllowedRun(s, steps)
    ensures Safe(After(s, steps))
    ensures Allowed(After(s, steps), step) ==> CrossesIntoEmpty(After(s, steps), step)
  {
    StartIsGood(s);
    RunKeeps(s, steps);
    hide Inv, Allowed, ConsistentStart;
    GoodIsSafe(After(s, steps));
    if Allowed(After(s, steps), step) {
      CrossingIsSafe(After(s, steps), step);
    }
  }
}
