/**
 * Pi and firmware run together: the firmware answers what the Pi asks, over whole runs, and the Pi
 * acts on the answers it hears.
 */
module JointRuns {
  import opened Coaster
  import opened Interlock
  import opened InterlockRuns
  import opened SerialLink
  import opened Firmware
  import Traces = FirmwareTraces
  import opened LinkRefinement
  import opened FirmwarePins

  // ------------------------------------------------------------------- the way back, over runs

  /** What the firmware answers to a message it reads in `mode`. */
  function AnswerTo(m: Coaster.Message, mode: byte, s: Samples): seq<byte> {
    match m
    case RequestButtonState => [SEND_BUTTON_STATE, mode]
    case CanSend(canSend) =>
      if mode == MANUAL then [RESPOND_CAN_SEND, if ToByte(canSend) == 1 && s.startButton then 1 else 0] else []
    case _ => []
  }

  /** The switches as a run of iterations reads them. */
  function Switches(slots: seq<Slot>): (trace: seq<Samples>)
    ensures |trace| == |slots|
    ensures forall i :: 0 <= i < |slots| ==> trace[i] == slots[i].samples
  {
    seq(|slots|, i requires 0 <= i < |slots| => slots[i].samples)
  }

  /** The answers to `ms` if message `i` is read in iteration `at[i]`. */
  function AnswersOf(ms: seq<Coaster.Message>, l: Latches, trace: seq<Samples>, at: seq<nat>): seq<byte>
    requires |at| == |ms| && forall i :: 0 <= i < |at| ==> at[i] < |trace|
  {
    if ms == [] then []
    else AnswerTo(ms[0], Traces.IterationMode(l, trace, at[0]), trace[at[0]]) + AnswersOf(ms[1..], l, trace, at[1..])
  }

  predicate Increasing(at: seq<nat>, n: nat) {
    && (forall i :: 0 <= i < |at| ==> at[i] < n)
    && (forall i, j :: 0 <= i < j < |at| ==> at[i] < at[j])
  }

  /** A run has read the first `|at|` of the waiting messages, one in each of the iterations `at`, and answered them. */
  ghost predicate ReadAt(p: Progress, slots: seq<Slot>, ms: seq<Coaster.Message>, at: seq<nat>) {
    && |at| <= |ms| && Increasing(at, |slots|)
    && var q := RunFirmware(p, slots);
       && !q.stuck && Pending(q.rx, ms[|at|..])
       && q.replies == p.replies + AnswersOf(ms[..|at|], p.latches, Switches(slots), at)
  }

  lemma {:induction false} TickFirst(l: Latches, trace: seq<Samples>, i: nat)
    requires i < |trace|
    ensures Traces.LatchesAt(Tick(l, trace[0]), trace[1..], i) == Traces.LatchesAt(l, trace, i + 1)
  {
    hide Tick;
    if i > 0 {
      TickFirst(l, trace, i - 1);
    } else {
      assert Traces.LatchesAt(l, trace, 0) == l;
    }
  }

  function Later(at: seq<nat>): (later: seq<nat>)
    ensures |later| == |at| && forall i :: 0 <= i < |at| ==> later[i] == at[i] + 1
  {
    seq(|at|, i requires 0 <= i < |at| => at[i] + 1)
  }

  lemma LaterTail(at: seq<nat>)
    requires at != []
    ensures Later(at)[1..] == Later(at[1..]) && Later(at)[0] == at[0] + 1
  {
  }

  lemma ModeLater(l: Latches, trace: seq<Samples>, i: nat)
    requires i + 1 < |trace|
    ensures Traces.IterationMode(Tick(l, trace[0]), trace[1..], i) == Traces.IterationMode(l, trace, i + 1)
    ensures trace[1..][i] == trace[i + 1]
  {
    TickFirst(l, trace, i);
    hide Tick, ModeOf;
  }

  lemma {:induction false} AnswersLater(ms: seq<Coaster.Message>, l: Latches, trace: seq<Samples>, at: seq<nat>)
    requires trace != [] && |at| == |ms| && forall i :: 0 <= i < |at| ==> at[i] < |trace| - 1
    ensures AnswersOf(ms, Tick(l, trace[0]), trace[1..], at) == AnswersOf(ms, l, trace, Later(at))
  {
    hide Tick, AnswerTo, ModeOf, Traces.IterationMode, Traces.LatchesAt, Later;
    if ms != [] {
      LaterTail(at);
      ModeLater(l, trace, at[0]);
      AnswersLater(ms[1..], l, trace, at[1..]);
    }
  }

  lemma CarriedAnswer(collected: seq<byte>, m: Coaster.Message, mode: byte, s: Samples)
    requires CarriesMessage(collected, m)
    ensures ReplyOf(mode, Some(collected), s) == AnswerTo(m, mode, s)
  {
  }

  /** One iteration reads and answers the next message, or none. */
  lemma OneAnswer(p: Progress, slot: Slot, ms: seq<Coaster.Message>)
    requires !p.stuck && Pending(p.rx, ms)
    ensures var q := Advance(p, slot);
            && !q.stuck && q.latches == Tick(p.latches, slot.samples)
            && ((Pending(q.rx, ms) && q.replies == p.replies)
                || (ms != [] && Pending(q.rx, ms[1..])
                    && q.replies == p.replies + AnswerTo(ms[0], ModeOf(p.latches, slot.samples), slot.samples)))
  {
    var left :| Traces.PastFrame(p.rx, left, EncodeAll(ms));
    hide Collect, ModeOf, Tick, Encode, CarriesMessage, WritesOf, DriveAll, AnswerTo;
    if slot.available && p.rx != [] {
      if left != [] {
        JunkIsSkipped(left, EncodeAll(ms));
        assert Traces.PastFrame(p.rx[1..], left[1..], EncodeAll(ms));
      } else {
        assert p.rx == Encode(ms[0]) + EncodeAll(ms[1..]);
        MessageGetsThrough(ms[0], EncodeAll(ms[1..]));
        CarriedAnswer(Collect(p.rx).message, ms[0], ModeOf(p.latches, slot.samples), slot.samples);
        hide ReplyOf;
      }
    }
  }

  lemma AnswersFirst(ms: seq<Coaster.Message>, l: Latches, trace: seq<Samples>, rest: seq<nat>)
    requires trace != [] && |ms| == |rest| + 1 && forall i :: 0 <= i < |rest| ==> rest[i] < |trace| - 1
    ensures AnswersOf(ms, l, trace, [0] + Later(rest))
            == AnswerTo(ms[0], ModeOf(l, trace[0]), trace[0]) + AnswersOf(ms[1..], Tick(l, trace[0]), trace[1..], rest)
  {
    hide AnswerTo, Tick, ModeOf;
    AnswersLater(ms[1..], l, trace, rest);
    assert ([0] + Later(rest))[1..] == Later(rest);
    assert Traces.LatchesAt(l, trace, 0) == l;
  }

  lemma IncreasingLater(at: seq<nat>, n: nat)
    requires Increasing(at, n)
    ensures Increasing(Later(at), n + 1) && Increasing([0] + Later(at), n + 1)
  {
  }

  lemma ReadLater(p: Progress, slots: seq<Slot>, ms: seq<Coaster.Message>, rest: seq<nat>)
    requires slots != [] && ReadAt(Advance(p, slots[0]), slots[1..], ms, rest)
    requires Advance(p, slots[0]).latches == Tick(p.latches, slots[0].samples)
             && Advance(p, slots[0]).replies == p.replies
    ensures ReadAt(p, slots, ms, Later(rest))
  {
    IncreasingLater(rest, |slots| - 1);
    var trace := Switches(slots);
    assert trace[1..] == Switches(slots[1..]);
    hide Advance, Pending, Tick, Increasing, AnswersOf;
    AnswersAgain(p.latches, trace, ms[..|rest|], rest, |slots| - 1);
  }

  lemma AnswersAgain(l: Latches, trace: seq<Samples>, ms: seq<Coaster.Message>, rest: seq<nat>, n: nat)
    requires |trace| == n + 1 && |ms| == |rest| && Increasing(rest, n)
    ensures forall i :: 0 <= i < |rest| ==> rest[i] < |trace| - 1
    ensures AnswersOf(ms, Tick(l, trace[0]), trace[1..], rest) == AnswersOf(ms, l, trace, Later(rest))
  {
    AnswersLater(ms, l, trace, rest);
  }

  lemma TakeTail(ms: seq<Coaster.Message>, n: nat)
    requires n < |ms|
    ensures |ms[..n + 1]| == n + 1 && ms[..n + 1][1..] == ms[1..][..n] && ms[..n + 1][0] == ms[0]
    ensures ms[1..][n..] == ms[n + 1..]
  {
  }

  lemma FirstReplies(p: Progress, slots: seq<Slot>, front: seq<Coaster.Message>, rest: seq<nat>)
    requires slots != [] && |front| == |rest| + 1 && Increasing(rest, |slots| - 1)
    requires Advance(p, slots[0]).latches == Tick(p.latches, slots[0].samples)
    requires Advance(p, slots[0]).replies
             == p.replies + AnswerTo(front[0], ModeOf(p.latches, slots[0].samples), slots[0].samples)
    ensures Increasing([0] + Later(rest), |slots|)
    ensures var q := Advance(p, slots[0]);
            q.replies + AnswersOf(front[1..], q.latches, Switches(slots[1..]), rest)
            == p.replies + AnswersOf(front, p.latches, Switches(slots), [0] + Later(rest))
  {
    IncreasingLater(rest, |slots| - 1);
    hide Advance, AnswerTo, Tick, ModeOf, AnswersOf;
    var l, trace := p.latches, Switches(slots);
    TailSwitches(slots);
    AnswersFirst(front, l, trace, rest);
    hide *;
    Associate(p.replies, AnswerTo(front[0], ModeOf(l, trace[0]), trace[0]),
              AnswersOf(front[1..], Tick(l, trace[0]), trace[1..], rest));
  }

  lemma TailSwitches(slots: seq<Slot>)
    requires slots != []
    ensures Switches(slots)[1..] == Switches(slots[1..])
  {
  }

  lemma Associate(a: seq<byte>, b: seq<byte>, c: seq<byte>)
    ensures (a + b) + c == a + (b + c)
  {
  }

  lemma ReadFirst(p: Progress, slots: seq<Slot>, ms: seq<Coaster.Message>, rest: seq<nat>)
    requires slots != [] && ms != [] && ReadAt(Advance(p, slots[0]), slots[1..], ms[1..], rest)
    requires Advance(p, slots[0]).latches == Tick(p.latches, slots[0].samples)
    requires Advance(p, slots[0]).replies
             == p.replies + AnswerTo(ms[0], ModeOf(p.latches, slots[0].samples), slots[0].samples)
    ensures ReadAt(p, slots, ms, [0] + Later(rest))
  {
    hide Advance, Pending, AnswerTo, Tick, ModeOf, Increasing, AnswersOf, Switches, Later;
    TakeTail(ms, |rest|);
    FirstReplies(p, slots, ms[..|rest| + 1], rest);
    assert |[0] + Later(rest)| == |rest| + 1;
  }

  /**
   * The way back over runs. Whatever the modes and the timing, a run answers the messages on the
   * line in order: each poll with the mode of the very iteration that reads it, each start request
   * as that iteration finds the button, and nothing else.
   */
  lemma {:induction false} AnswersInOrder(p: Progress, slots: seq<Slot>, ms: seq<Coaster.Message>)
      returns (at: seq<nat>)
    requires !p.stuck && Pending(p.rx, ms)
    ensures ReadAt(p, slots, ms, at)
    ensures RunFirmware(p, slots).rx == [] ==> |at| == |ms|
    decreases slots
  {
    if slots == [] {
      at := [];
      NothingRead(p, ms);
    } else {
      var q := Advance(p, slots[0]);
      OneAnswer(p, slots[0], ms);
      hide Advance, Pending, AnswerTo, Tick, ModeOf, ReadAt, RunFirmware;
      if Pending(q.rx, ms) && q.replies == p.replies {
        var rest := AnswersInOrder(q, slots[1..], ms);
        at := Later(rest);
        ReadLater(p, slots, ms, rest);
      } else {
        var rest := AnswersInOrder(q, slots[1..], ms[1..]);
        at := [0] + Later(rest);
        ReadFirst(p, slots, ms, rest);
      }
    }
    AllAnswered(p, slots, ms, at);
  }

  lemma NothingRead(p: Progress, ms: seq<Coaster.Message>)
    requires !p.stuck && Pending(p.rx, ms)
    ensures ReadAt(p, [], ms, [])
  {
    assert ms[0..] == ms && ms[..0] == [];
    hide Pending;
  }

  lemma AllAnswered(p: Progress, slots: seq<Slot>, ms: seq<Coaster.Message>, at: seq<nat>)
    requires ReadAt(p, slots, ms, at)
    ensures RunFirmware(p, slots).rx == [] ==> |at| == |ms|
  {
    NothingPending(ms[|at|..]);
    hide RunFirmware, AnswersOf, Pending, Increasing;
  }

  // ------------------------------------------------------------------------------ joint runs

  /**
   * One control cycle with the firmware running beside it: the zones as copied; the iterations while
   * the Pi waits for the mode, while it waits for a start reply if it asks, and until its next cycle.
   * `modeArrives` and `startArrives` say how many answers, of those given and not taken before, are
   * there when the wait ends, each whole. The others are still in transit, and a later wait finds them.
   */
  datatype Exchange = Exchange(
    zones: Snapshot, poll: seq<Slot>, modeArrives: nat, ask: seq<Slot>, startArrives: nat, rest: seq<Slot>)

  /** `firmware.replies` holds what the firmware has answered and the Pi has not taken, in transit or unread. */
  datatype Joint = Joint(memory: Memory, firmware: Progress)

  /** The Pi writes `ms`, then the firmware runs. */
  function Window(f: Progress, ms: seq<Coaster.Message>, slots: seq<Slot>): Progress {
    RunFirmware(f.(rx := f.rx + EncodeAll(ms)), slots)
  }

  /** What a wait brings: the first `answers` of those outstanding, late answers to earlier questions included. */
  function Received(f: Progress, answers: nat): seq<byte> {
    if |f.replies| <= 2 * answers then f.replies else f.replies[..2 * answers]
  }

  function Untaken(replies: seq<byte>, answers: nat): seq<byte> {
    if |replies| <= 2 * answers then [] else replies[2 * answers..]
  }

  /** A wait discards all that has arrived, used or not. */
  function AfterTaking(f: Progress, answers: nat): Progress {
    f.(replies := Untaken(f.replies, answers))
  }

  function AfterPoll(j: Joint, x: Exchange): Progress {
    Window(j.firmware, [RequestButtonState], x.poll)
  }

  function ModeReply(j: Joint, x: Exchange): seq<byte> {
    Received(AfterPoll(j, x), x.modeArrives)
  }

  function AfterHearing(j: Joint, x: Exchange): Progress {
    AfterTaking(AfterPoll(j, x), x.modeArrives)
  }

  /** What a cycle in this mode writes before it waits for a start reply, if it asks for one at all. */
  function Opening(mode: byte, zones: Snapshot, releaseGo: byte): seq<Coaster.Message> {
    if mode == MANUAL && Authorised(zones, Station) && releaseGo == 0
    then LiftHillManual(zones, releaseGo) + [CanSend(1)]
    else []
  }

  function OpeningOf(j: Joint, x: Exchange): seq<Coaster.Message> {
    Opening(Heard(j.memory.state, ModeReply(j, x)), x.zones, j.memory.releaseGo)
  }

  function AfterAsking(j: Joint, x: Exchange): Progress {
    Window(AfterHearing(j, x), OpeningOf(j, x), x.ask)
  }

  /** What the second wait takes: there is none unless the cycle asks. */
  function StartTaken(j: Joint, x: Exchange): nat {
    if OpeningOf(j, x) == [] then 0 else x.startArrives
  }

  function AfterGrant(j: Joint, x: Exchange): Progress {
    AfterTaking(AfterAsking(j, x), StartTaken(j, x))
  }

  /** The cycle as the controller lives it. */
  function CycleIn(j: Joint, x: Exchange): Cycle {
    Cycle(x.zones, ModeReply(j, x), Received(AfterAsking(j, x), StartTaken(j, x)))
  }

  lemma OpensWith(mode: byte, zones: Snapshot, releaseGo: byte, reply: byte)
    ensures var opening, sent := Opening(mode, zones, releaseGo), Decide(mode, zones, releaseGo, reply).sent;
            |opening| <= |sent| && sent[..|opening|] == opening
  {
    if mode == MANUAL && Authorised(zones, Station) && releaseGo == 0 {
      var hill, drive := LiftHillManual(zones, releaseGo), [if reply != 0 then StationForward(128) else StopStation];
      hide LiftHillManual, PreStationRunning, RideRunning;
      assert StationManual(zones, releaseGo, reply).sent == [CanSend(1)] + drive;
      assert Decide(mode, zones, releaseGo, reply).sent
             == (hill + [CanSend(1)]) + (drive + PreStationRunning(zones) + RideRunning(zones));
    }
  }

  /** What is left to write once the start reply is in. */
  function Remaining(j: Joint, x: Exchange): seq<Coaster.Message> {
    OpensWith(Heard(j.memory.state, ModeReply(j, x)), x.zones, j.memory.releaseGo,
              StartFromReply(1, CycleIn(j, x).startReply));
    DecisionIn(j.memory, CycleIn(j, x)).sent[|OpeningOf(j, x)|..]
  }

  function AfterExchange(j: Joint, x: Exchange): Joint {
    Joint(AfterCycle(j.memory, CycleIn(j, x)), Window(AfterGrant(j, x), Remaining(j, x), x.rest))
  }

  function RunJoint(j: Joint, xs: seq<Exchange>): Joint {
    if xs == [] then j else AfterExchange(RunJoint(j, xs[..|xs| - 1]), xs[|xs| - 1])
  }

  /** The control cycles of a joint run. */
  function JointCycles(j: Joint, xs: seq<Exchange>): (cs: seq<Cycle>)
    ensures |cs| == |xs|
  {
    if xs == [] then []
    else JointCycles(j, xs[..|xs| - 1]) + [CycleIn(RunJoint(j, xs[..|xs| - 1]), xs[|xs| - 1])]
  }

  lemma {:induction false} JointMemory(j: Joint, xs: seq<Exchange>)
    ensures RunJoint(j, xs).memory == MemoryAfter(j.memory, JointCycles(j, xs))
  {
    hide AfterCycle, CycleIn, Window, AfterGrant, Remaining;
    if xs != [] {
      var n := |xs| - 1;
      JointMemory(j, xs[..n]);
      assert JointCycles(j, xs)[..n] == JointCycles(j, xs[..n]);
    }
  }

  // ------------------------------------------------------------------------- where an answer is from

  /** What happens to the firmware and to the line back, one thing after another. */
  datatype Event = Writes(ms: seq<Coaster.Message>) | Iteration(slot: Slot) | Takes(answers: nat)

  function Happen(f: Progress, e: Event): Progress {
    match e
    case Writes(ms) => f.(rx := f.rx + EncodeAll(ms))
    case Iteration(slot) => Advance(f, slot)
    case Takes(answers) => AfterTaking(f, answers)
  }

  function Replay(f: Progress, es: seq<Event>): Progress {
    if es == [] then f else Happen(Replay(f, es[..|es| - 1]), es[|es| - 1])
  }

  /** The iteration answers a question. */
  predicate Speaks(p: Progress, slot: Slot) {
    !p.stuck && var o := Iterate(p.latches, p.rx, slot); o.Done? && o.reply != []
  }

  /** How many answers the firmware has given. */
  function Given(f: Progress, es: seq<Event>): nat {
    if es == [] then 0
    else
      var n := |es| - 1;
      Given(f, es[..n]) + if es[n].Iteration? && Speaks(Replay(f, es[..n]), es[n].slot) then 1 else 0
  }

  /** How many of them the Pi has taken. */
  function Taken(f: Progress, es: seq<Event>): nat {
    if es == [] then 0
    else
      var n := |es| - 1;
      if !es[n].Takes? then Taken(f, es[..n])
      else if Taken(f, es[..n]) + es[n].answers <= Given(f, es[..n]) then Taken(f, es[..n]) + es[n].answers
      else Given(f, es[..n])
  }

  /** Iteration `k` gives answer number `c`, and it is `reply`. */
  predicate Gives(f: Progress, es: seq<Event>, k: nat, c: nat, reply: seq<byte>) {
    && k < |es| && es[k].Iteration? && Given(f, es[..k]) == c
    && var q := Replay(f, es[..k]);
       !q.stuck && var o := Iterate(q.latches, q.rx, es[k].slot); o.Done? && o.reply == reply
  }

  ghost predicate GivenAs(f: Progress, es: seq<Event>, c: nat, reply: seq<byte>) {
    exists k: nat :: Gives(f, es, k, c, reply)
  }

  /** Iteration `k` gives answer number `c`: to a poll, with the mode it is in. */
  predicate Answers(f: Progress, es: seq<Event>, k: nat, c: nat, mode: byte) {
    && k < |es| && es[k].Iteration? && mode == ModeOf(Replay(f, es[..k]).latches, es[k].slot.samples)
    && Gives(f, es, k, c, [SEND_BUTTON_STATE, mode])
  }

  ghost predicate Answered(f: Progress, es: seq<Event>, c: nat, mode: byte) {
    exists k: nat :: Answers(f, es, k, c, mode)
  }

  lemma ReplyKinds(mode: byte, message: Option<seq<byte>>, s: Samples)
    ensures var r := ReplyOf(mode, message, s);
            r == [] || r == [SEND_BUTTON_STATE, mode] || (|r| == 2 && r[0] == RESPOND_CAN_SEND)
  {
  }

  /** What one iteration adds to the line back. */
  lemma OneReply(p: Progress, slot: Slot)
    ensures var q, o := Advance(p, slot), Iterate(p.latches, p.rx, slot);
            if p.stuck || !o.Done? then q.replies == p.replies
            else
              && q.replies == p.replies + o.reply
              && (o.reply == [] || o.reply == [SEND_BUTTON_STATE, ModeOf(p.latches, slot.samples)]
                  || (|o.reply| == 2 && o.reply[0] == RESPOND_CAN_SEND))
  {
    var o := Iterate(p.latches, p.rx, slot);
    if o.Done? {
      ReplyKinds(o.mode, o.message, slot.samples);
    }
    hide Collect, ModeOf, Tick, WritesOf, ReplyOf, DriveAll;
  }

  /** The first of the answers outstanding, if there is one. */
  function FirstOf(replies: seq<byte>): seq<byte> {
    if |replies| >= 2 then replies[..2] else []
  }

  /** The Pi goes by the first two bytes, that is, by the first answer. */
  lemma FirstDecides(replies: seq<byte>, more: seq<byte>)
    requires |replies| >= 2
    ensures ModeFromReply(replies + more) == if replies[0] == SEND_BUTTON_STATE then replies[1] else 255
    ensures ModeFromReply(replies) == ModeFromReply(replies + more)
  {
    assert (replies + more)[0] == replies[0] && (replies + more)[1] == replies[1];
  }

  lemma SaysByFirst(replies: seq<byte>, mode: byte)
    requires WholeAnswers(replies) && mode != 255
    ensures ModeFromReply(replies) == mode <==> FirstOf(replies) == [SEND_BUTTON_STATE, mode]
  {
    NothingSaid();
    if |replies| >= 2 {
      FirstDecides(replies, []);
      assert replies + [] == replies;
      assert FirstOf(replies) == [replies[0], replies[1]];
    }
    hide ModeFromReply;
  }

  lemma NothingSaid()
    ensures ModeFromReply([]) == 255
  {
  }

  /** Only whole answers are outstanding. */
  predicate WholeAnswers(replies: seq<byte>) {
    |replies| % 2 == 0
  }

  lemma GivesBefore(f: Progress, es: seq<Event>, e: Event, k: nat, c: nat, reply: seq<byte>)
    requires k < |es|
    ensures Gives(f, es + [e], k, c, reply) <==> Gives(f, es, k, c, reply)
  {
    assert (es + [e])[..k] == es[..k] && (es + [e])[k] == es[k];
    hide Replay, Given, Iterate;
  }

  /** The last event may give answer number `c`; the others give it as before. */
  lemma GivenStep(f: Progress, es: seq<Event>, e: Event, c: nat, reply: seq<byte>)
    ensures GivenAs(f, es + [e], c, reply) <==> GivenAs(f, es, c, reply) || Gives(f, es + [e], |es|, c, reply)
  {
    hide Gives;
    if k: nat :| Gives(f, es + [e], k, c, reply) {
      Indexed(f, es + [e], k, c, reply);
      if k < |es| {
        GivesBefore(f, es, e, k, c, reply);
      }
    }
    if k: nat :| Gives(f, es, k, c, reply) {
      Indexed(f, es, k, c, reply);
      GivesBefore(f, es, e, k, c, reply);
    }
  }

  lemma Indexed(f: Progress, es: seq<Event>, k: nat, c: nat, reply: seq<byte>)
    requires Gives(f, es, k, c, reply)
    ensures k < |es| && Given(f, es[..k]) == c
  {
    hide Given, Replay, Iterate;
  }

  lemma LastGives(f: Progress, es: seq<Event>, e: Event, c: nat, reply: seq<byte>)
    ensures Gives(f, es + [e], |es|, c, reply) <==>
              && e.Iteration? && Given(f, es) == c
              && var q := Replay(f, es);
                 !q.stuck && var o := Iterate(q.latches, q.rx, e.slot); o.Done? && o.reply == reply
  {
    assert (es + [e])[..|es|] == es;
    hide Replay, Given, Iterate;
  }

  /** Only the answer to a poll names a mode, and it names the iteration's own. */
  lemma PollsOnly(p: Progress, slot: Slot, mode: byte)
    requires !p.stuck
    ensures var o := Iterate(p.latches, p.rx, slot);
            o.Done? && o.reply == [SEND_BUTTON_STATE, mode] ==> mode == ModeOf(p.latches, slot.samples)
  {
    OneReply(p, slot);
    hide Advance, Iterate, ModeOf;
  }

  lemma AnswersGives(f: Progress, es: seq<Event>, k: nat, c: nat, mode: byte)
    requires Answers(f, es, k, c, mode)
    ensures Gives(f, es, k, c, [SEND_BUTTON_STATE, mode])
  {
    hide Gives;
  }

  lemma AnsweredIsGiven(f: Progress, es: seq<Event>, c: nat, mode: byte)
    ensures Answered(f, es, c, mode) <==> GivenAs(f, es, c, [SEND_BUTTON_STATE, mode])
  {
    if k: nat :| Gives(f, es, k, c, [SEND_BUTTON_STATE, mode]) {
      PollsOnly(Replay(f, es[..k]), es[k].slot, mode);
      hide Replay, Given, Iterate, ModeOf;
      assert Answers(f, es, k, c, mode);
    }
    if k: nat :| Answers(f, es, k, c, mode) {
      hide Gives, Replay, ModeOf;
      assert Gives(f, es, k, c, [SEND_BUTTON_STATE, mode]);
    }
  }

  /** Taking `d` answers more, of which `n` at once. */
  lemma UntakenTwice(r: seq<byte>, n: nat, d: nat)
    requires n <= d
    ensures Untaken(Untaken(r, n), d - n) == Untaken(r, d)
  {
  }

  /** Answer number `d` of those outstanding, after one more answer or none. */
  lemma OneMoreFirst(r: seq<byte>, reply: seq<byte>, d: nat)
    requires WholeAnswers(r) && (reply == [] || |reply| == 2)
    ensures FirstOf(Untaken(r + reply, d))
            == if 2 * d < |r| then FirstOf(Untaken(r, d)) else if 2 * d == |r| then reply else []
    ensures 2 * d >= |r| ==> FirstOf(Untaken(r, d)) == []
  {
    if 2 * d < |r| {
      assert Untaken(r + reply, d) == Untaken(r, d) + reply;
      assert (Untaken(r, d) + reply)[..2] == Untaken(r, d)[..2];
    } else if 2 * d == |r| {
      assert Untaken(r + reply, d) == reply;
    }
  }

  /** The mode in answer number `d` of those outstanding, after one more answer or none. */
  lemma MoreOutstanding(r: seq<byte>, reply: seq<byte>, d: nat)
    requires WholeAnswers(r) && (reply == [] || |reply| == 2)
    ensures 2 * d < |r| ==> ModeFromReply(Untaken(r + reply, d)) == ModeFromReply(Untaken(r, d))
    ensures 2 * d == |r| ==> Untaken(r + reply, d) == reply && Untaken(r, d) == []
    ensures 2 * d > |r| ==> Untaken(r + reply, d) == [] && Untaken(r, d) == []
  {
    hide ModeFromReply;
    if 2 * d < |r| {
      assert Untaken(r + reply, d) == Untaken(r, d) + reply;
      FirstDecides(Untaken(r, d), reply);
    }
  }

  /** What one more event does to the counts. */
  lemma CountStep(f: Progress, es: seq<Event>, e: Event)
    ensures Given(f, es + [e]) == Given(f, es) + if e.Iteration? && Speaks(Replay(f, es), e.slot) then 1 else 0
    ensures Taken(f, es + [e])
            == if !e.Takes? then Taken(f, es)
               else if Taken(f, es) + e.answers <= Given(f, es) then Taken(f, es) + e.answers
               else Given(f, es)
  {
    assert (es + [e])[..|es|] == es && (es + [e])[|es|] == e;
    hide Speaks, Replay;
  }

  /** Answers add up: two bytes for each that is given and not taken. */
  ghost predicate AddsUp(f: Progress, es: seq<Event>) {
    Taken(f, es) <= Given(f, es) && |Replay(f, es).replies| == 2 * (Given(f, es) - Taken(f, es))
  }

  lemma OutstandingStep(f: Progress, es: seq<Event>, e: Event)
    requires AddsUp(f, es)
    ensures AddsUp(f, es + [e])
  {
    var q := Replay(f, es);
    CountStep(f, es, e);
    ReplayLast(f, es, e);
    if e.Iteration? {
      OneReply(q, e.slot);
    }
    hide Replay, Given, Taken, Advance, Iterate, ModeOf, EncodeAll;
  }

  lemma {:induction false} AddsUpAlways(f: Progress, es: seq<Event>)
    requires f.replies == []
    ensures AddsUp(f, es)
  {
    if es != [] {
      var n := |es| - 1;
      assert es == es[..n] + [es[n]];
      hide *;
      AddsUpAlways(f, es[..n]);
      OutstandingStep(f, es[..n], es[n]);
    }
  }

  lemma Outstanding(f: Progress, es: seq<Event>)
    requires f.replies == []
    ensures Taken(f, es) <= Given(f, es) && |Replay(f, es).replies| == 2 * (Given(f, es) - Taken(f, es))
    ensures WholeAnswers(Replay(f, es).replies)
  {
    hide Replay, Given, Taken;
    AddsUpAlways(f, es);
  }

  lemma CountsRise(f: Progress, es: seq<Event>, e: Event)
    requires f.replies == []
    ensures Given(f, es) <= Given(f, es + [e]) && Taken(f, es) <= Taken(f, es + [e])
  {
    Outstanding(f, es);
    CountStep(f, es, e);
    hide *;
  }

  /** Answer number `c`, if it is outstanding. */
  function SaidIn(f: Progress, es: seq<Event>, c: nat): seq<byte>
    requires Taken(f, es) <= c
  {
    FirstOf(Untaken(Replay(f, es).replies, c - Taken(f, es)))
  }

  /** Answer number `c`, if outstanding, is `reply` exactly if it was given so. */
  ghost predicate GivenSo(f: Progress, es: seq<Event>, c: nat, reply: seq<byte>)
    requires Taken(f, es) <= c
  {
    SaidIn(f, es, c) == reply <==> GivenAs(f, es, c, reply)
  }

  lemma WritesStep(f: Progress, es: seq<Event>, ms: seq<Coaster.Message>, c: nat, reply: seq<byte>)
    requires Taken(f, es) <= c && GivenSo(f, es, c, reply)
    ensures Taken(f, es + [Writes(ms)]) <= c && GivenSo(f, es + [Writes(ms)], c, reply)
  {
    var e := Writes(ms);
    CountStep(f, es, e);
    ReplayLast(f, es, e);
    SameReplies(Replay(f, es), ms);
    GivenStep(f, es, e, c, reply);
    LastGives(f, es, e, c, reply);
    hide Replay, Given, Taken, Happen, Iterate, FirstOf, GivenAs, Gives, Untaken, Speaks;
  }

  /** Taking answers changes nothing about those that stay. */
  lemma SaidThen(f: Progress, es: seq<Event>, answers: nat, c: nat)
    requires f.replies == [] && Taken(f, es) <= c && Taken(f, es + [Takes(answers)]) <= c
    ensures SaidIn(f, es + [Takes(answers)], c) == SaidIn(f, es, c)
  {
    var e, r := Takes(answers), Replay(f, es).replies;
    hide Replay, Given, Taken, FirstOf, Speaks;
    Outstanding(f, es);
    CountStep(f, es, e);
    ReplayLast(f, es, e);
    if Taken(f, es) + answers <= Given(f, es) {
      UntakenTwice(r, answers, c - Taken(f, es));
    }
  }

  lemma TakesStep(f: Progress, es: seq<Event>, answers: nat, c: nat, reply: seq<byte>)
    requires f.replies == [] && Taken(f, es) <= c && GivenSo(f, es, c, reply)
    requires Taken(f, es + [Takes(answers)]) <= c
    ensures GivenSo(f, es + [Takes(answers)], c, reply)
  {
    hide SaidIn, GivenAs, Taken, Replay, Given, Iterate, Gives;
    SaidThen(f, es, answers, c);
    GivenStep(f, es, Takes(answers), c, reply);
    LastGives(f, es, Takes(answers), c, reply);
  }

  lemma SaidAfter(f: Progress, es: seq<Event>, slot: Slot, c: nat)
    requires Taken(f, es) <= c
    ensures var es' := es + [Iteration(slot)];
            && Taken(f, es') <= c
            && SaidIn(f, es', c) == FirstOf(Untaken(Advance(Replay(f, es), slot).replies, c - Taken(f, es)))
  {
    CountStep(f, es, Iteration(slot));
    ReplayLast(f, es, Iteration(slot));
    hide Replay, Given, Taken, Advance, FirstOf, Untaken, Speaks;
  }

  lemma SaidBefore(f: Progress, es: seq<Event>, c: nat)
    requires f.replies == [] && Taken(f, es) <= c
    ensures SaidIn(f, es, c) == FirstOf(Untaken(Replay(f, es).replies, c - Taken(f, es)))
    ensures 2 * (c - Taken(f, es)) == |Replay(f, es).replies| <==> Given(f, es) == c
    ensures WholeAnswers(Replay(f, es).replies)
  {
    hide Replay, Given, Taken, FirstOf, Untaken;
    Outstanding(f, es);
  }

  lemma SaidStep(f: Progress, es: seq<Event>, slot: Slot, c: nat, reply: seq<byte>)
    requires f.replies == [] && Taken(f, es) <= c && |reply| == 2
    ensures var es' := es + [Iteration(slot)];
            && Taken(f, es') <= c
            && (SaidIn(f, es', c) == reply <==> SaidIn(f, es, c) == reply || Gives(f, es', |es|, c, reply))
  {
    var q := Replay(f, es);
    hide *;
    SaidBefore(f, es, c);
    SaidAfter(f, es, slot, c);
    LastGives(f, es, Iteration(slot), c, reply);
    OneMoreOutstanding(q, slot, c - Taken(f, es), reply);
  }

  lemma IterationStep(f: Progress, es: seq<Event>, slot: Slot, c: nat, reply: seq<byte>)
    requires f.replies == [] && Taken(f, es) <= c && |reply| == 2 && GivenSo(f, es, c, reply)
    ensures Taken(f, es + [Iteration(slot)]) <= c && GivenSo(f, es + [Iteration(slot)], c, reply)
  {
    hide SaidIn, GivenAs, Gives, Taken;
    SaidStep(f, es, slot, c, reply);
    GivenStep(f, es, Iteration(slot), c, reply);
  }

  /** Answer number `d` of those outstanding, when the firmware runs once more. */
  lemma OneMoreOutstanding(q: Progress, slot: Slot, d: nat, reply: seq<byte>)
    requires WholeAnswers(q.replies) && |reply| == 2
    ensures var o := Iterate(q.latches, q.rx, slot);
            FirstOf(Untaken(Advance(q, slot).replies, d)) == reply <==>
            || FirstOf(Untaken(q.replies, d)) == reply
            || (2 * d == |q.replies| && !q.stuck && o.Done? && o.reply == reply)
  {
    var o := Iterate(q.latches, q.rx, slot);
    OneReply(q, slot);
    assert q.replies + [] == q.replies;
    hide Advance, Iterate, ModeOf, Untaken, FirstOf;
    OneMoreFirst(q.replies, if q.stuck || !o.Done? then [] else o.reply, d);
  }

  /**
   * What any answer still outstanding says: answer number `c`, counted from the first ever given, is
   * exactly what the iteration that gave it said.
   */
  lemma {:induction false} NumberedAnswer(f: Progress, es: seq<Event>, c: nat, reply: seq<byte>)
    requires f.replies == [] && Taken(f, es) <= c && |reply| == 2
    ensures GivenSo(f, es, c, reply)
    decreases |es|
  {
    if es == [] {
      hide Iterate;
    } else {
      var n := |es| - 1;
      var front, e := es[..n], es[n];
      assert es == front + [e];
      hide *;
      CountsRise(f, front, e);
      NumberedAnswer(f, front, c, reply);
      match e {
        case Writes(ms) => WritesStep(f, front, ms, c, reply);
        case Iteration(slot) => IterationStep(f, front, slot, c, reply);
        case Takes(answers) => TakesStep(f, front, answers, c, reply);
      }
    }
  }

  lemma SameReplies(f: Progress, ms: seq<Coaster.Message>)
    ensures Happen(f, Writes(ms)).replies == f.replies
  {
  }

  /** Answers are only ever added, and only ever taken. */
  lemma {:induction false} CountsGrow(f: Progress, es: seq<Event>, more: seq<Event>)
    requires f.replies == []
    ensures Given(f, es) <= Given(f, es + more) && Taken(f, es) <= Taken(f, es + more)
    decreases |more|
  {
    if more == [] {
      assert es + more == es;
    } else {
      var n := |more| - 1;
      assert es + more == (es + more[..n]) + [more[n]];
      hide *;
      CountsGrow(f, es, more[..n]);
      CountsRise(f, es + more[..n], more[n]);
    }
  }

  // ------------------------------------------------------------------- joint runs, event by event

  function Iterations(slots: seq<Slot>): (es: seq<Event>)
    ensures |es| == |slots|
    ensures forall i :: 0 <= i < |slots| ==> es[i] == Iteration(slots[i])
  {
    seq(|slots|, i requires 0 <= i < |slots| => Iteration(slots[i]))
  }

  function Passes(ms: seq<Coaster.Message>, slots: seq<Slot>): seq<Event> {
    [Writes(ms)] + Iterations(slots)
  }

  /** The events of a cycle up to the end of its first wait, before anything is read. */
  function Waits(x: Exchange): seq<Event> {
    Passes([RequestButtonState], x.poll)
  }

  function EventsIn(j: Joint, x: Exchange): seq<Event> {
    Waits(x) + [Takes(x.modeArrives)] + Passes(OpeningOf(j, x), x.ask) + [Takes(StartTaken(j, x))]
    + Passes(Remaining(j, x), x.rest)
  }

  function Events(j: Joint, xs: seq<Exchange>): seq<Event> {
    if xs == [] then []
    else Events(j, xs[..|xs| - 1]) + EventsIn(RunJoint(j, xs[..|xs| - 1]), xs[|xs| - 1])
  }

  /** All that has happened when cycle `i` stops waiting for the mode. */
  function UntilHeard(j: Joint, xs: seq<Exchange>, i: nat): seq<Event>
    requires i < |xs|
  {
    Events(j, xs[..i]) + Waits(xs[i])
  }

  lemma ReplayLast(f: Progress, es: seq<Event>, e: Event)
    ensures Replay(f, es + [e]) == Happen(Replay(f, es), e)
  {
    assert (es + [e])[..|es|] == es;
    hide Happen;
  }

  lemma {:induction false} ReplayJoins(f: Progress, es: seq<Event>, more: seq<Event>)
    ensures Replay(f, es + more) == Replay(Replay(f, es), more)
  {
    if more == [] {
      assert es + more == es;
    } else {
      var n := |more| - 1;
      hide *;
      ReplayJoins(f, es, more[..n]);
      assert more == more[..n] + [more[n]] && es + more == (es + more[..n]) + [more[n]];
      ReplayLast(f, es + more[..n], more[n]);
      ReplayLast(Replay(f, es), more[..n], more[n]);
    }
  }

  lemma ReplayOne(f: Progress, e: Event)
    ensures Replay(f, [e]) == Happen(f, e)
  {
    assert [e][..0] == [];
    hide Happen;
  }

  lemma {:induction false} ReplayIterations(f: Progress, slots: seq<Slot>)
    ensures Replay(f, Iterations(slots)) == RunFirmware(f, slots)
    decreases slots
  {
    hide Advance;
    if slots != [] {
      ReplayIterations(Advance(f, slots[0]), slots[1..]);
      assert Iterations(slots) == [Iteration(slots[0])] + Iterations(slots[1..]);
      ReplayJoins(f, [Iteration(slots[0])], Iterations(slots[1..]));
      ReplayOne(f, Iteration(slots[0]));
    }
  }

  lemma ReplayPasses(f: Progress, ms: seq<Coaster.Message>, slots: seq<Slot>)
    ensures Replay(f, Passes(ms, slots)) == Window(f, ms, slots)
  {
    hide Advance, EncodeAll, Iterations, RunFirmware, Replay;
    ReplayJoins(f, [Writes(ms)], Iterations(slots));
    ReplayOne(f, Writes(ms));
    ReplayIterations(f.(rx := f.rx + EncodeAll(ms)), slots);
  }

  lemma ReplayTaking(f: Progress, answers: nat)
    ensures Replay(f, [Takes(answers)]) == AfterTaking(f, answers)
  {
    ReplayOne(f, Takes(answers));
  }

  lemma ReplayExchange(j: Joint, x: Exchange)
    ensures Replay(j.firmware, Waits(x)) == AfterPoll(j, x)
    ensures Replay(j.firmware, EventsIn(j, x)) == AfterExchange(j, x).firmware
  {
    var f := j.firmware;
    var a := Waits(x);
    var b := a + [Takes(x.modeArrives)];
    var c := b + Passes(OpeningOf(j, x), x.ask);
    var d := c + [Takes(StartTaken(j, x))];
    hide Passes, Remaining, Window, OpeningOf, StartTaken, Replay, AfterTaking, AfterCycle, CycleIn;
    ReplayPasses(f, [RequestButtonState], x.poll);
    ReplayJoins(f, a, [Takes(x.modeArrives)]);
    ReplayTaking(AfterPoll(j, x), x.modeArrives);
    ReplayJoins(f, b, Passes(OpeningOf(j, x), x.ask));
    ReplayPasses(AfterHearing(j, x), OpeningOf(j, x), x.ask);
    ReplayJoins(f, c, [Takes(StartTaken(j, x))]);
    ReplayTaking(AfterAsking(j, x), StartTaken(j, x));
    ReplayJoins(f, d, Passes(Remaining(j, x), x.rest));
    ReplayPasses(AfterGrant(j, x), Remaining(j, x), x.rest);
  }

  lemma {:induction false} ReplayRun(j: Joint, xs: seq<Exchange>)
    ensures Replay(j.firmware, Events(j, xs)) == RunJoint(j, xs).firmware
  {
    hide AfterExchange, EventsIn, Replay;
    if xs == [] {
      NothingReplayed(j.firmware);
    } else {
      var n := |xs| - 1;
      ReplayRun(j, xs[..n]);
      ReplayExchange(RunJoint(j, xs[..n]), xs[n]);
      ReplayJoins(j.firmware, Events(j, xs[..n]), EventsIn(RunJoint(j, xs[..n]), xs[n]));
    }
  }

  lemma NothingReplayed(f: Progress)
    ensures Replay(f, []) == f
  {
  }

  // --------------------------------------------------------------------------- mode agreement

  /** The mode the Pi hears in cycle `i`, or 255. */
  function HeardIn(j: Joint, xs: seq<Exchange>, i: nat): byte
    requires i < |xs|
  {
    ModeFromReply(ModeReply(RunJoint(j, xs[..i]), xs[i]))
  }

  predicate HearsNothing(j: Joint, xs: seq<Exchange>, i: nat)
    requires i < |xs|
  {
    HeardIn(j, xs, i) == 255
  }

  /**
   * Exactly when the Pi hears a mode: some answer has arrived, and the first that the Pi has not taken
   * before, whichever question it belongs to, says that mode.
   */
  lemma HeardExactly(j: Joint, xs: seq<Exchange>, i: nat, mode: byte)
    requires j.firmware.replies == [] && i < |xs| && mode != 255
    ensures var until := UntilHeard(j, xs, i);
            HeardIn(j, xs, i) == mode <==>
            xs[i].modeArrives > 0 && Answered(j.firmware, until, Taken(j.firmware, until), mode)
  {
    var until := UntilHeard(j, xs, i);
    hide HeardIn, SaidIn, Answered, UntilHeard, Taken, Given, GivenAs;
    Outstanding(j.firmware, until);
    NumberedAnswer(j.firmware, until, Taken(j.firmware, until), [SEND_BUTTON_STATE, mode]);
    AnsweredIsGiven(j.firmware, until, Taken(j.firmware, until), mode);
    SaidNow(j, xs, i, mode);
  }

  lemma SaidNow(j: Joint, xs: seq<Exchange>, i: nat, mode: byte)
    requires j.firmware.replies == [] && i < |xs| && mode != 255
    ensures var until := UntilHeard(j, xs, i);
            HeardIn(j, xs, i) == mode <==>
            xs[i].modeArrives > 0
            && SaidIn(j.firmware, until, Taken(j.firmware, until)) == [SEND_BUTTON_STATE, mode]
  {
    hide Replay, UntilHeard, AfterPoll, RunJoint, Taken, Given, Received, Untaken, ModeFromReply, FirstOf;
    ReplayUntil(j, xs, i);
    Outstanding(j.firmware, UntilHeard(j, xs, i));
    FirstArrived(AfterPoll(RunJoint(j, xs[..i]), xs[i]), xs[i].modeArrives);
    SaysByFirst(AfterPoll(RunJoint(j, xs[..i]), xs[i]).replies, mode);
  }

  lemma ReplayUntil(j: Joint, xs: seq<Exchange>, i: nat)
    requires i < |xs|
    ensures Replay(j.firmware, UntilHeard(j, xs, i)) == AfterPoll(RunJoint(j, xs[..i]), xs[i])
  {
    hide Replay, Events, Waits, AfterPoll, RunJoint;
    ReplayRun(j, xs[..i]);
    ReplayExchange(RunJoint(j, xs[..i]), xs[i]);
    ReplayJoins(j.firmware, Events(j, xs[..i]), Waits(xs[i]));
  }

  /** What has arrived is understood by its first answer. */
  lemma FirstArrived(f: Progress, answers: nat)
    requires WholeAnswers(f.replies)
    ensures Untaken(f.replies, 0) == f.replies
    ensures ModeFromReply(Received(f, answers)) == if answers > 0 then ModeFromReply(f.replies) else 255
  {
    NothingSaid();
    hide ModeFromReply;
    if 0 < 2 * answers < |f.replies| {
      FirstDecides(f.replies[..2 * answers], f.replies[2 * answers..]);
      assert f.replies[..2 * answers] + f.replies[2 * answers..] == f.replies;
    }
  }

  lemma PrefixHeard(j: Joint, xs: seq<Exchange>, n: nat, i: nat)
    requires i < n <= |xs|
    ensures HeardIn(j, xs[..n], i) == HeardIn(j, xs, i) && (HearsNothing(j, xs[..n], i) <==> HearsNothing(j, xs, i))
  {
    PrefixOfPrefix(xs, i, n);
    hide ModeReply, RunJoint;
  }

  /** What the last cycle does to the mode. */
  lemma LastHears(j: Joint, xs: seq<Exchange>)
    requires xs != []
    ensures var n := |xs| - 1;
            RunJoint(j, xs).memory.state
            == if HearsNothing(j, xs, n) then RunJoint(j, xs[..n]).memory.state else HeardIn(j, xs, n)
  {
    var n := |xs| - 1;
    var before := RunJoint(j, xs[..n]);
    assert RunJoint(j, xs).memory.state == ModeIn(before.memory, CycleIn(before, xs[n]));
    hide ModeReply, RunJoint, ModeFromReply, AfterAsking;
  }

  /** Cycle `i` is the last of the run that hears the firmware. */
  predicate LastHeard(j: Joint, xs: seq<Exchange>, i: nat) {
    i < |xs| && !HearsNothing(j, xs, i) && forall later :: i < later < |xs| ==> HearsNothing(j, xs, later)
  }

  lemma LastHeardBefore(j: Joint, xs: seq<Exchange>, i: nat)
    requires LastHeard(j, xs, i) && i + 1 < |xs|
    ensures LastHeard(j, xs[..|xs| - 1], i) && HearsNothing(j, xs, |xs| - 1)
  {
    var n := |xs| - 1;
    hide HeardIn;
    PrefixHeard(j, xs, n, i);
    forall later | i < later < n
      ensures HearsNothing(j, xs[..n], later)
    {
      assert HearsNothing(j, xs, later);
      PrefixHeard(j, xs, n, later);
    }
  }

  lemma {:induction false} SilenceKeepsTheMode(j: Joint, xs: seq<Exchange>)
    requires forall i :: 0 <= i < |xs| ==> HearsNothing(j, xs, i)
    ensures RunJoint(j, xs).memory.state == j.memory.state
  {
    if xs != [] {
      var n := |xs| - 1;
      LastHears(j, xs);
      hide HeardIn, AfterExchange;
      forall i | 0 <= i < n
        ensures HearsNothing(j, xs[..n], i)
      {
        assert HearsNothing(j, xs, i);
        PrefixHeard(j, xs, n, i);
      }
      SilenceKeepsTheMode(j, xs[..n]);
    }
  }

  lemma {:induction false} TheLastHeardHolds(j: Joint, xs: seq<Exchange>, i: nat)
    requires i < |xs| && LastHeard(j, xs, i)
    ensures RunJoint(j, xs).memory.state == HeardIn(j, xs, i)
    decreases |xs|
  {
    var n := |xs| - 1;
    if i == n {
      LastHears(j, xs);
      hide HeardIn, RunJoint;
    } else {
      LastHeardBefore(j, xs, i);
      hide *;
      LastHears(j, xs);
      TheLastHeardHolds(j, xs[..n], i);
      PrefixHeard(j, xs, n, i);
    }
  }

  /** The events of a run begin with those up to any of its waits and what that wait takes. */
  lemma {:induction false} EventsPrefix(j: Joint, xs: seq<Exchange>, e: nat)
    requires e < |xs|
    ensures UntilHeard(j, xs, e) + [Takes(xs[e].modeArrives)] <= Events(j, xs)
    decreases |xs|
  {
    var n := |xs| - 1;
    if e == n {
      hide Waits, OpeningOf, Remaining, StartTaken, RunJoint, Events;
      EventsLast(j, xs);
    } else {
      EventsPrefix(j, xs[..n], e);
      PrefixOfPrefix(xs, e, n);
      hide Waits, RunJoint, EventsIn;
      PrefixTrans(UntilHeard(j, xs, e) + [Takes(xs[e].modeArrives)], Events(j, xs[..n]),
                  EventsIn(RunJoint(j, xs[..n]), xs[n]));
    }
  }

  lemma PrefixTrans<T>(a: seq<T>, b: seq<T>, c: seq<T>)
    requires a <= b
    ensures a <= b + c
  {
  }

  lemma EventsLast(j: Joint, xs: seq<Exchange>)
    requires xs != []
    ensures var n := |xs| - 1; UntilHeard(j, xs, n) + [Takes(xs[n].modeArrives)] <= Events(j, xs)
  {
    var n := |xs| - 1;
    var before := RunJoint(j, xs[..n]);
    var a, b := Waits(xs[n]), [Takes(xs[n].modeArrives)];
    var c, d, e := Passes(OpeningOf(before, xs[n]), xs[n].ask), [Takes(StartTaken(before, xs[n]))],
                   Passes(Remaining(before, xs[n]), xs[n].rest);
    assert Events(j, xs) == Events(j, xs[..n]) + (a + b + c + d + e) by {
      hide Waits, Passes, RunJoint, OpeningOf, StartTaken, Remaining;
    }
    hide *;
    PrefixOfFive(Events(j, xs[..n]), a, b, c, d, e);
  }

  lemma PrefixOfFive<T>(s: seq<T>, a: seq<T>, b: seq<T>, c: seq<T>, d: seq<T>, e: seq<T>)
    ensures s + a + b <= s + (a + b + c + d + e)
  {
    assert s + (a + b + c + d + e) == s + a + b + (c + d + e);
  }

  /** In cycle `e` the wait for the mode leaves nothing in transit. */
  predicate TakesAll(j: Joint, xs: seq<Exchange>, e: nat)
    requires e < |xs|
  {
    |AfterPoll(RunJoint(j, xs[..e]), xs[e]).replies| <= 2 * xs[e].modeArrives
  }

  lemma TakenAll(j: Joint, xs: seq<Exchange>, e: nat)
    requires j.firmware.replies == [] && e < |xs| && TakesAll(j, xs, e)
    ensures var until := UntilHeard(j, xs, e);
            Taken(j.firmware, until + [Takes(xs[e].modeArrives)]) == Given(j.firmware, until)
  {
    var until := UntilHeard(j, xs, e);
    hide Replay, UntilHeard, AfterPoll, RunJoint, Given, Taken;
    ReplayUntil(j, xs, e);
    CountStep(j.firmware, until, Takes(xs[e].modeArrives));
    Outstanding(j.firmware, until);
  }

  /** An answer heard is no older than the last wait before that left nothing in transit. */
  lemma NotOlder(j: Joint, xs: seq<Exchange>, e: nat, i: nat, k: nat, mode: byte)
    requires j.firmware.replies == [] && e < i < |xs| && TakesAll(j, xs, e)
    requires var until := UntilHeard(j, xs, i); Answers(j.firmware, until, k, Taken(j.firmware, until), mode)
    ensures |UntilHeard(j, xs, e)| <= k
  {
    var f := j.firmware;
    var early, es := UntilHeard(j, xs, e), UntilHeard(j, xs, i);
    var took := early + [Takes(xs[e].modeArrives)];
    UntilPrefix(j, xs, e, i);
    hide *;
    TakenAll(j, xs, e);
    Rejoin(early, Takes(xs[e].modeArrives), es, k);
    CountsGrow(f, took, es[|took|..]);
    AnswersGives(f, es, k, Taken(f, es), mode);
    SpokenAt(f, es, k, Taken(f, es), [SEND_BUTTON_STATE, mode]);
    if k < |early| {
      CountsGrow(f, es[..k + 1], early[k + 1..]);
      assert false;
    }
  }

  lemma Rejoin<T>(a: seq<T>, x: T, s: seq<T>, k: nat)
    requires a + [x] <= s
    ensures s == (a + [x]) + s[|a + [x]|..]
    ensures k < |a| ==> a == s[..k + 1] + a[k + 1..]
  {
    if k < |a| {
      forall i | 0 <= i < |a|
        ensures a[i] == s[i]
      {
        assert (a + [x])[i] == a[i];
      }
    }
  }

  lemma UntilPrefix(j: Joint, xs: seq<Exchange>, e: nat, i: nat)
    requires e < i < |xs|
    ensures UntilHeard(j, xs, e) + [Takes(xs[e].modeArrives)] <= UntilHeard(j, xs, i)
  {
    EventsPrefix(j, xs[..i], e);
    PrefixOfPrefix(xs, e, i);
    hide Events, Waits;
    PrefixTrans(UntilHeard(j, xs, e) + [Takes(xs[e].modeArrives)], Events(j, xs[..i]), Waits(xs[i]));
  }

  lemma SpokenAt(f: Progress, es: seq<Event>, k: nat, c: nat, reply: seq<byte>)
    requires Gives(f, es, k, c, reply) && reply != []
    ensures k < |es| && Given(f, es[..k + 1]) == c + 1
  {
    assert es[..k + 1][..k] == es[..k] && es[..k + 1][k] == es[k];
    hide Replay, Iterate;
  }

  /**
   * In cycle `i` the Pi hears iteration `k` of the run say `mode`, the mode it is in, in the first
   * answer not taken before. That iteration comes after every earlier wait that left nothing in
   * transit: the answer is no older than the last of them.
   */
  ghost predicate HearsFrom(j: Joint, xs: seq<Exchange>, i: nat, k: nat, mode: byte)
    requires i < |xs|
  {
    var until := UntilHeard(j, xs, i);
    && xs[i].modeArrives > 0 && Answers(j.firmware, until, k, Taken(j.firmware, until), mode)
    && forall e :: 0 <= e < i && TakesAll(j, xs, e) ==> |UntilHeard(j, xs, e)| <= k
  }

  ghost predicate HearsFirmware(j: Joint, xs: seq<Exchange>, i: nat, mode: byte)
    requires i < |xs|
  {
    exists k: nat :: HearsFrom(j, xs, i, k, mode)
  }

  /**
   * Mode agreement. Over every joint run that starts with nothing outstanding, with answers arriving
   * whole but as late as they like, the Pi's mode is the one it started with until it first hears the
   * firmware. From then on it is exactly the mode the firmware was in, by its own latches and
   * switches, in the iteration that gave the answer last heard, an iteration since the last wait
   * before that left nothing in transit.
   */
  lemma JointModeAgreement(j: Joint, xs: seq<Exchange>)
    requires j.firmware.replies == []
    ensures (forall i :: 0 <= i < |xs| ==> HearsNothing(j, xs, i)) ==> RunJoint(j, xs).memory.state == j.memory.state
    ensures forall i: nat :: i < |xs| && LastHeard(j, xs, i) ==> HearsFirmware(j, xs, i, RunJoint(j, xs).memory.state)
  {
    hide RunJoint, HeardIn, HearsFirmware;
    if forall i :: 0 <= i < |xs| ==> HearsNothing(j, xs, i) {
      SilenceKeepsTheMode(j, xs);
    }
    forall i: nat | i < |xs| && LastHeard(j, xs, i)
      ensures HearsFirmware(j, xs, i, RunJoint(j, xs).memory.state)
    {
      TheLastHeardHolds(j, xs, i);
      HeardFrom(j, xs, i);
    }
  }

  lemma LastIsHeard(j: Joint, xs: seq<Exchange>, i: nat)
    requires i < |xs| && LastHeard(j, xs, i)
    ensures !HearsNothing(j, xs, i)
  {
    hide HeardIn;
  }

  lemma HeardFrom(j: Joint, xs: seq<Exchange>, i: nat)
    requires j.firmware.replies == [] && i < |xs| && !HearsNothing(j, xs, i)
    ensures HearsFirmware(j, xs, i, HeardIn(j, xs, i))
  {
    var mode, until := HeardIn(j, xs, i), UntilHeard(j, xs, i);
    HeardExactly(j, xs, i, mode);
    var k: nat :| Answers(j.firmware, until, k, Taken(j.firmware, until), mode);
    hide Answers, UntilHeard, HeardIn, TakesAll, Taken;
    forall e | 0 <= e < i && TakesAll(j, xs, e)
      ensures |UntilHeard(j, xs, e)| <= k
    {
      NotOlder(j, xs, e, i, k, mode);
    }
    assert HearsFrom(j, xs, i, k, mode);
  }

  lemma {:induction false} UnreadComesFirst(p: Progress, slots: seq<Slot>)
    requires |p.replies| >= 2 && WholeAnswers(p.replies)
    ensures ModeFromReply(RunFirmware(p, slots).replies) == ModeFromReply(p.replies)
    ensures WholeAnswers(RunFirmware(p, slots).replies)
    decreases slots
  {
    if slots != [] {
      var o := Iterate(p.latches, p.rx, slots[0]);
      OneReply(p, slots[0]);
      if !p.stuck && o.Done? {
        FirstDecides(p.replies, o.reply);
      }
      hide Advance, Iterate, ModeOf, ModeFromReply;
      UnreadComesFirst(Advance(p, slots[0]), slots[1..]);
    }
  }

  /**
   * A late answer is taken for the answer to the next poll: if anything is outstanding when the Pi
   * polls, and some of it arrives, what the Pi makes of the wait is what it would have made of that
   * alone, whatever the firmware answers meanwhile.
   */
  lemma LateAnswerFirst(j: Joint, x: Exchange)
    requires j.firmware.replies != [] && WholeAnswers(j.firmware.replies) && x.modeArrives > 0
    ensures ModeFromReply(ModeReply(j, x)) == ModeFromReply(j.firmware.replies)
  {
    var f := j.firmware;
    hide RunFirmware, EncodeAll, ModeFromReply, Received;
    UnreadComesFirst(f.(rx := f.rx + EncodeAll([RequestButtonState])), x.poll);
    FirstArrived(AfterPoll(j, x), x.modeArrives);
  }

  // ------------------------------------------------------------------------ each to its own poll

  predicate Asks(m: Coaster.Message) {
    m.RequestButtonState? || m.CanSend?
  }

  ghost predicate NobodyAsks(ms: seq<Coaster.Message>) {
    forall i :: 0 <= i < |ms| ==> !Asks(ms[i])
  }

  lemma {:induction false} NoAnswers(ms: seq<Coaster.Message>, l: Latches, trace: seq<Samples>, at: seq<nat>)
    requires |at| == |ms| && (forall i :: 0 <= i < |at| ==> at[i] < |trace|) && NobodyAsks(ms)
    ensures AnswersOf(ms, l, trace, at) == []
  {
    hide Traces.IterationMode;
    if ms != [] {
      assert !Asks(ms[0]);
      NoAnswers(ms[1..], l, trace, at[1..]);
    }
  }

  lemma {:induction false} OnlyTheLastAnswers(ms: seq<Coaster.Message>, l: Latches, trace: seq<Samples>, at: seq<nat>)
    requires |at| == |ms| + 1 && (forall i :: 0 <= i < |at| ==> at[i] < |trace|) && NobodyAsks(ms)
    ensures AnswersOf(ms + [RequestButtonState], l, trace, at)
            == [SEND_BUTTON_STATE, Traces.IterationMode(l, trace, at[|ms|])]
  {
    hide Traces.IterationMode;
    if ms == [] {
      assert ms + [RequestButtonState] == [RequestButtonState];
      assert AnswersOf([], l, trace, at[1..]) == [];
    } else {
      assert !Asks(ms[0]);
      assert (ms + [RequestButtonState])[1..] == ms[1..] + [RequestButtonState];
      OnlyTheLastAnswers(ms[1..], l, trace, at[1..]);
    }
  }

  /**
   * If no earlier question is on the line when the Pi polls, and no earlier answer outstanding, all it
   * can hear is the answer to that poll, whole: the mode of the iteration that reads it. Otherwise
   * the poll is still unread.
   */
  lemma PollAnswered(f: Progress, backlog: seq<Coaster.Message>, slots: seq<Slot>)
    requires !f.stuck && f.replies == [] && Pending(f.rx, backlog) && NobodyAsks(backlog)
    ensures var q := Window(f, [RequestButtonState], slots);
            || (q.replies == [] && exists n ::
                  0 <= n <= |backlog| && Pending(q.rx, backlog[n..] + [RequestButtonState]))
            || (Pending(q.rx, []) && exists r ::
                  && 0 <= r < |slots|
                  && q.replies == [SEND_BUTTON_STATE, Traces.IterationMode(f.latches, Switches(slots), r)])
  {
    var ms := backlog + [RequestButtonState];
    var p := f.(rx := f.rx + EncodeAll([RequestButtonState]));
    MoreWaiting(f.rx, backlog, [RequestButtonState]);
    hide RunFirmware, Traces.IterationMode, AnswersOf, Pending, EncodeAll;
    var at := AnswersInOrder(p, slots, ms);
    var n := |at|;
    if n <= |backlog| {
      assert ms[..n] == backlog[..n] && ms[n..] == backlog[n..] + [RequestButtonState];
      NoAnswers(backlog[..n], f.latches, Switches(slots), at);
    } else {
      assert ms[..n] == ms && ms[n..] == [];
      OnlyTheLastAnswers(backlog, f.latches, Switches(slots), at);
    }
  }

  /** Writing more messages adds them to those on the line. */
  lemma MoreWaiting(rx: seq<byte>, ms: seq<Coaster.Message>, ns: seq<Coaster.Message>)
    requires Pending(rx, ms)
    ensures Pending(rx + EncodeAll(ns), ms + ns)
  {
    var left :| Traces.PastFrame(rx, left, EncodeAll(ms));
    EncodeAllAppend(ms, ns);
    PastMore(rx, left, EncodeAll(ms), EncodeAll(ns));
    hide EncodeAll, Traces.PastFrame;
    assert Traces.PastFrame(rx + EncodeAll(ns), left, EncodeAll(ms + ns));
  }

  lemma PastMore(rx: seq<byte>, left: seq<byte>, frames: seq<byte>, more: seq<byte>)
    requires Traces.PastFrame(rx, left, frames)
    ensures Traces.PastFrame(rx + more, left, frames + more)
  {
    Associate(left, frames, more);
  }

  // --------------------------------------------------------------------- the pins, over joint runs

  /** The firmware has obeyed some first few of `ms` and the rest are on the line. */
  ghost predicate OnLine(f: Progress, ms: seq<Coaster.Message>, a: Actuators) {
    !f.stuck && exists k :: Reached(f, ms, a, k)
  }

  lemma JoinObeyed(ms: seq<Coaster.Message>, ns: seq<Coaster.Message>, k: nat, k': nat, a: Actuators)
    requires k <= |ms| && k' <= |ms[k..] + ns|
    ensures (ms + ns)[..k + k'] == ms[..k] + (ms[k..] + ns)[..k']
    ensures (ms + ns)[k + k'..] == (ms[k..] + ns)[k'..]
    ensures ObeyAll((ms + ns)[..k + k'], a) == ObeyAll((ms[k..] + ns)[..k'], ObeyAll(ms[..k], a))
  {
    assert (ms + ns)[..k + k'] == ms[..k] + (ms[k..] + ns)[..k'];
    ObeyAllAppend(ms[..k], (ms[k..] + ns)[..k'], a);
  }

  lemma WindowOnLine(f: Progress, ms: seq<Coaster.Message>, a: Actuators, ns: seq<Coaster.Message>, slots: seq<Slot>)
    requires OnLine(f, ms, a) && NoMaintenance(f.latches, slots)
    ensures OnLine(Window(f, ns, slots), ms + ns, a)
  {
    var k: nat :| Reached(f, ms, a, k);
    var p := f.(rx := f.rx + EncodeAll(ns));
    var waiting, b := ms[k..] + ns, ObeyAll(ms[..k], a);
    hide Pending, EncodeAll, ObeyAll, RunFirmware, NoMaintenance, Realises;
    MoreWaiting(f.rx, ms[k..], ns);
    ObeysInOrder(p, slots, waiting, b);
    var k': nat :| Reached(RunFirmware(p, slots), waiting, b, k');
    JoinObeyed(ms, ns, k, k', a);
    assert Reached(RunFirmware(p, slots), ms + ns, a, k + k');
  }

  /** Reading answers moves nothing the other way. */
  lemma TakingOnLine(f: Progress, ms: seq<Coaster.Message>, a: Actuators, answers: nat)
    requires OnLine(f, ms, a)
    ensures OnLine(AfterTaking(f, answers), ms, a)
  {
    var k: nat :| Reached(f, ms, a, k);
    hide Pending, Realises, ObeyAll;
    assert Reached(AfterTaking(f, answers), ms, a, k);
  }

  /** No iteration of an exchange, or of a joint run, is in MAINTENANCE. */
  ghost predicate Commanding(j: Joint, x: Exchange) {
    && NoMaintenance(j.firmware.latches, x.poll) && NoMaintenance(AfterHearing(j, x).latches, x.ask)
    && NoMaintenance(AfterGrant(j, x).latches, x.rest)
  }

  ghost predicate CommandingRun(j: Joint, xs: seq<Exchange>) {
    forall i :: 0 <= i < |xs| ==> Commanding(RunJoint(j, xs[..i]), xs[i])
  }

  lemma ExchangeSends(j: Joint, x: Exchange)
    ensures [RequestButtonState] + OpeningOf(j, x) + Remaining(j, x) == SentIn(j.memory, CycleIn(j, x))
  {
    OpensWith(Heard(j.memory.state, ModeReply(j, x)), x.zones, j.memory.releaseGo,
              StartFromReply(1, CycleIn(j, x).startReply));
    hide Opening, Heard, ModeReply, StartFromReply, AfterAsking, StartTaken, Decide;
    var sent := DecisionIn(j.memory, CycleIn(j, x)).sent;
    assert sent == OpeningOf(j, x) + Remaining(j, x);
  }

  lemma ExchangeOnLine(j: Joint, x: Exchange, ms: seq<Coaster.Message>, a: Actuators)
    requires OnLine(j.firmware, ms, a) && Commanding(j, x)
    ensures OnLine(AfterExchange(j, x).firmware, ms + SentIn(j.memory, CycleIn(j, x)), a)
  {
    ExchangeSends(j, x);
    hide OnLine, NoMaintenance, Window, OpeningOf, Remaining, SentIn, CycleIn, AfterTaking, StartTaken;
    var asked := ms + [RequestButtonState];
    WindowOnLine(j.firmware, ms, a, [RequestButtonState], x.poll);
    TakingOnLine(AfterPoll(j, x), asked, a, x.modeArrives);
    WindowOnLine(AfterHearing(j, x), asked, a, OpeningOf(j, x), x.ask);
    TakingOnLine(AfterAsking(j, x), asked + OpeningOf(j, x), a, StartTaken(j, x));
    WindowOnLine(AfterGrant(j, x), asked + OpeningOf(j, x), a, Remaining(j, x), x.rest);
    assert ms + [RequestButtonState] + OpeningOf(j, x) + Remaining(j, x)
           == ms + ([RequestButtonState] + OpeningOf(j, x) + Remaining(j, x));
  }

  /**
   * Over every joint run outside MAINTENANCE the pins realise some first few of all the Pi sent;
   * the rest are on the line.
   */
  lemma {:induction false} JointPins(j: Joint, xs: seq<Exchange>, ms: seq<Coaster.Message>, a: Actuators)
    requires OnLine(j.firmware, ms, a) && CommandingRun(j, xs)
    ensures OnLine(RunJoint(j, xs).firmware, ms + SentOver(j.memory, JointCycles(j, xs)), a)
  {
    hide OnLine, Commanding, AfterCycle, SentIn, CycleIn;
    if xs == [] {
      assert ms + [] == ms;
    } else {
      var n := |xs| - 1;
      var before, cs := RunJoint(j, xs[..n]), JointCycles(j, xs);
      CommandingBefore(j, xs);
      JointPins(j, xs[..n], ms, a);
      JointMemory(j, xs[..n]);
      ExchangeOnLine(before, xs[n], ms + SentOver(j.memory, JointCycles(j, xs[..n])), a);
      assert cs[..n] == JointCycles(j, xs[..n]);
      assert ms + SentOver(j.memory, cs) == ms + SentOver(j.memory, cs[..n]) + SentIn(before.memory, cs[n]);
    }
  }

  lemma CommandingBefore(j: Joint, xs: seq<Exchange>)
    requires xs != [] && CommandingRun(j, xs)
    ensures CommandingRun(j, xs[..|xs| - 1]) && Commanding(RunJoint(j, xs[..|xs| - 1]), xs[|xs| - 1])
  {
    var n := |xs| - 1;
    hide Commanding, RunJoint;
    forall i | 0 <= i < n
      ensures Commanding(RunJoint(j, xs[..n][..i]), xs[..n][i])
    {
      PrefixOfPrefix(xs, i, n);
      assert Commanding(RunJoint(j, xs[..i]), xs[i]);
    }
  }

  /**
   * Over every joint run, in any modes, every motor that is given power has its bridge enabled forward
   * at the end of each cycle, if it had at the start, as it has after `setup`.
   */
  lemma {:induction false} JointMotorsTurn(j: Joint, xs: seq<Exchange>)
    requires MotorsReady(j.firmware.board)
    ensures MotorsReady(RunJoint(j, xs).firmware.board)
  {
    hide MotorsReady, AfterExchange;
    if xs != [] {
      JointMotorsTurn(j, xs[..|xs| - 1]);
      ExchangeMotorsTurn(RunJoint(j, xs[..|xs| - 1]), xs[|xs| - 1]);
    }
  }

  lemma ExchangeMotorsTurn(j: Joint, x: Exchange)
    requires MotorsReady(j.firmware.board)
    ensures MotorsReady(AfterExchange(j, x).firmware.board)
  {
    hide MotorsReady, RunFirmware, EncodeAll, OpeningOf, Remaining, StartTaken, CycleIn;
    var f, g, h := j.firmware, AfterHearing(j, x), AfterGrant(j, x);
    PoweredMotorsTurn(f.(rx := f.rx + EncodeAll([RequestButtonState])), x.poll);
    PoweredMotorsTurn(g.(rx := g.rx + EncodeAll(OpeningOf(j, x))), x.ask);
    PoweredMotorsTurn(h.(rx := h.rx + EncodeAll(Remaining(j, x))), x.rest);
  }

  // -------------------------------------------------------------- latched modes, over joint runs

  /** The firmware is bound to report `mode`: the stop is latched alone, or the return to safe, which comes first. */
  predicate LatchedIn(l: Latches, mode: byte) {
    if mode == STOP then l.recoverEstop && !l.returnToSafe else mode == RETURN_TO_SAFE && l.returnToSafe
  }

  /** The iteration does nothing to end that: no reset and the ignition on, or no acknowledge. */
  predicate StaysLatched(s: Samples, mode: byte) {
    if mode == STOP then s.ignitionInStop && !(!s.estopFirst && !s.estopSecond && s.reset)
    else !(s.checkoutIgnition && s.acknowledge)
  }

  predicate AllStayLatched(slots: seq<Slot>, mode: byte) {
    forall i :: 0 <= i < |slots| ==> StaysLatched(slots[i].samples, mode)
  }

  lemma LatchedStep(p: Progress, slot: Slot, mode: byte)
    requires LatchedIn(p.latches, mode) && StaysLatched(slot.samples, mode)
    ensures ModeOf(p.latches, slot.samples) == mode && mode != MAINTENANCE
    ensures LatchedIn(Tick(p.latches, slot.samples), mode) && LatchedIn(Advance(p, slot).latches, mode)
  {
    hide Collect, WritesOf, ReplyOf, DriveAll;
  }

  lemma {:induction false} LatchedAfter(p: Progress, slots: seq<Slot>, mode: byte)
    requires LatchedIn(p.latches, mode) && AllStayLatched(slots, mode)
    ensures LatchedIn(RunFirmware(p, slots).latches, mode)
    decreases slots
  {
    hide Advance, LatchedIn, StaysLatched;
    if slots != [] {
      LatchedStep(p, slots[0], mode);
      LatchedAfter(Advance(p, slots[0]), slots[1..], mode);
    }
  }

  /** Of what is outstanding, all but the first `past` bytes say `mode`, where they say any. */
  ghost predicate NewsSay(replies: seq<byte>, past: nat, mode: byte) {
    && WholeAnswers(replies) && past % 2 == 0 && past <= |replies|
    && forall d: nat :: past <= 2 * d ==> SaysAt(replies, d, mode)
  }

  predicate SaysAt(replies: seq<byte>, d: nat, mode: byte) {
    var heard := ModeFromReply(Untaken(replies, d));
    heard == mode || heard == 255
  }

  /** What is left of the first `past` bytes when `answers` are taken. */
  function Less(past: nat, answers: nat): nat {
    if past <= 2 * answers then 0 else past - 2 * answers
  }

  lemma TakingKeepsNews(replies: seq<byte>, past: nat, answers: nat, mode: byte)
    requires NewsSay(replies, past, mode)
    ensures NewsSay(Untaken(replies, answers), Less(past, answers), mode)
  {
    NothingSaid();
    hide ModeFromReply;
    forall d: nat | Less(past, answers) <= 2 * d
      ensures SaysAt(Untaken(replies, answers), d, mode)
    {
      UntakenTwice(replies, answers, answers + d);
      assert SaysAt(replies, answers + d, mode);
    }
  }

  lemma OneMoreSays(p: Progress, slot: Slot, past: nat, mode: byte)
    requires NewsSay(p.replies, past, mode) && ModeOf(p.latches, slot.samples) == mode
    ensures NewsSay(Advance(p, slot).replies, past, mode)
  {
    var q, o := Advance(p, slot), Iterate(p.latches, p.rx, slot);
    OneReply(p, slot);
    NothingSaid();
    var reply := if p.stuck || !o.Done? then [] else o.reply;
    assert p.replies + [] == p.replies;
    hide Advance, Iterate, ModeOf, ModeFromReply, Untaken;
    assert q.replies == p.replies + reply;
    if reply != [] {
      FirstDecides(reply, []);
      assert reply + [] == reply;
    }
    forall d: nat | past <= 2 * d
      ensures SaysAt(q.replies, d, mode)
    {
      assert SaysAt(p.replies, d, mode);
      MoreOutstanding(p.replies, reply, d);
    }
  }

  /** While a mode is latched, what is answered says it, and what was outstanding before is untouched. */
  lemma {:induction false} LatchedWindow(p: Progress, slots: seq<Slot>, past: nat, mode: byte)
    requires LatchedIn(p.latches, mode) && AllStayLatched(slots, mode) && NewsSay(p.replies, past, mode)
    ensures NewsSay(RunFirmware(p, slots).replies, past, mode)
    decreases slots
  {
    if slots != [] {
      LatchedStep(p, slots[0], mode);
      OneMoreSays(p, slots[0], past, mode);
      hide Advance, LatchedIn, StaysLatched, Iterate, ModeOf, NewsSay;
      LatchedWindow(Advance(p, slots[0]), slots[1..], past, mode);
    }
  }

  lemma {:induction false} LatchedCommands(l: Latches, slots: seq<Slot>, mode: byte)
    requires LatchedIn(l, mode) && AllStayLatched(slots, mode)
    ensures NoMaintenance(l, slots)
    decreases slots
  {
    hide ModeOf, Tick, LatchedIn, StaysLatched;
    if slots != [] {
      LatchedStep(Progress(l, [], AFTER_SETUP, [], false), slots[0], mode);
      LatchedCommands(Tick(l, slots[0].samples), slots[1..], mode);
    }
  }

  predicate ExchangeLatched(x: Exchange, mode: byte) {
    AllStayLatched(x.poll, mode) && AllStayLatched(x.ask, mode) && AllStayLatched(x.rest, mode)
  }

  predicate RunLatched(xs: seq<Exchange>, mode: byte) {
    forall i :: 0 <= i < |xs| ==> ExchangeLatched(xs[i], mode)
  }

  lemma LatchedExchange(j: Joint, x: Exchange, mode: byte)
    requires LatchedIn(j.firmware.latches, mode) && ExchangeLatched(x, mode)
    ensures LatchedIn(AfterExchange(j, x).firmware.latches, mode) && Commanding(j, x)
  {
    hide RunFirmware, NoMaintenance, AllStayLatched, LatchedIn, OpeningOf, Remaining, EncodeAll, CycleIn, StartTaken;
    var f, g, h := j.firmware, AfterHearing(j, x), AfterGrant(j, x);
    LatchedCommands(f.latches, x.poll, mode);
    LatchedAfter(f.(rx := f.rx + EncodeAll([RequestButtonState])), x.poll, mode);
    LatchedCommands(g.latches, x.ask, mode);
    LatchedAfter(g.(rx := g.rx + EncodeAll(OpeningOf(j, x))), x.ask, mode);
    LatchedCommands(h.latches, x.rest, mode);
    LatchedAfter(h.(rx := h.rx + EncodeAll(Remaining(j, x))), x.rest, mode);
  }

  lemma LatchedSays(j: Joint, x: Exchange, past: nat, mode: byte)
    requires LatchedIn(j.firmware.latches, mode) && ExchangeLatched(x, mode) && NewsSay(j.firmware.replies, past, mode)
    ensures NewsSay(AfterPoll(j, x).replies, past, mode)
    ensures NewsSay(AfterExchange(j, x).firmware.replies, Less(Less(past, x.modeArrives), StartTaken(j, x)), mode)
  {
    hide RunFirmware, AllStayLatched, LatchedIn, OpeningOf, Remaining, EncodeAll, CycleIn, StartTaken, NewsSay, Less;
    var f, g, h := j.firmware, AfterHearing(j, x), AfterGrant(j, x);
    var past' := Less(past, x.modeArrives);
    LatchedAfter(f.(rx := f.rx + EncodeAll([RequestButtonState])), x.poll, mode);
    LatchedWindow(f.(rx := f.rx + EncodeAll([RequestButtonState])), x.poll, past, mode);
    TakingKeepsNews(AfterPoll(j, x).replies, past, x.modeArrives, mode);
    LatchedWindow(g.(rx := g.rx + EncodeAll(OpeningOf(j, x))), x.ask, past', mode);
    LatchedAfter(g.(rx := g.rx + EncodeAll(OpeningOf(j, x))), x.ask, mode);
    TakingKeepsNews(AfterAsking(j, x).replies, past', StartTaken(j, x), mode);
    LatchedWindow(h.(rx := h.rx + EncodeAll(Remaining(j, x))), x.rest, Less(past', StartTaken(j, x)), mode);
  }

  lemma {:induction false} LatchedThroughout(j: Joint, xs: seq<Exchange>, mode: byte)
    requires LatchedIn(j.firmware.latches, mode) && RunLatched(xs, mode)
    ensures LatchedIn(RunJoint(j, xs).firmware.latches, mode)
  {
    hide LatchedIn, ExchangeLatched, AfterExchange;
    if xs != [] {
      var n := |xs| - 1;
      LatchedThroughout(j, xs[..n], mode);
      LatchedExchange(RunJoint(j, xs[..n]), xs[n], mode);
    }
  }

  /** While a mode is latched, every command is obeyed. */
  lemma LatchedObeys(j: Joint, xs: seq<Exchange>, mode: byte)
    requires LatchedIn(j.firmware.latches, mode) && RunLatched(xs, mode)
    ensures CommandingRun(j, xs)
  {
    hide LatchedIn, ExchangeLatched, RunJoint, Commanding;
    forall i | 0 <= i < |xs|
      ensures Commanding(RunJoint(j, xs[..i]), xs[i])
    {
      LatchedThroughout(j, xs[..i], mode);
      LatchedExchange(RunJoint(j, xs[..i]), xs[i], mode);
    }
  }

  /** How much of what was outstanding at the start the Pi has not taken. */
  function PastLeft(j: Joint, xs: seq<Exchange>): nat {
    if xs == [] then |j.firmware.replies|
    else
      var n := |xs| - 1;
      Less(Less(PastLeft(j, xs[..n]), xs[n].modeArrives), StartTaken(RunJoint(j, xs[..n]), xs[n]))
  }

  /** Whatever the Pi hears in cycle `i` was answered during the run: all older answers have been taken. */
  predicate OnlyNews(j: Joint, xs: seq<Exchange>, i: nat)
    requires i <= |xs|
  {
    PastLeft(j, xs[..i]) == 0
  }

  lemma NothingNew(replies: seq<byte>, mode: byte)
    requires WholeAnswers(replies)
    ensures NewsSay(replies, |replies|, mode)
  {
    NothingSaid();
    hide ModeFromReply;
  }

  lemma {:induction false} LatchedNews(j: Joint, xs: seq<Exchange>, mode: byte)
    requires LatchedIn(j.firmware.latches, mode) && RunLatched(xs, mode) && WholeAnswers(j.firmware.replies)
    ensures NewsSay(RunJoint(j, xs).firmware.replies, PastLeft(j, xs), mode)
  {
    hide LatchedIn, ExchangeLatched, AfterExchange, NewsSay, Less, StartTaken;
    if xs == [] {
      NothingNew(j.firmware.replies, mode);
    } else {
      var n := |xs| - 1;
      LatchedThroughout(j, xs[..n], mode);
      LatchedNews(j, xs[..n], mode);
      LatchedSays(RunJoint(j, xs[..n]), xs[n], PastLeft(j, xs[..n]), mode);
    }
  }

  lemma SaidFirst(f: Progress, answers: nat, mode: byte)
    requires NewsSay(f.replies, 0, mode)
    ensures var heard := ModeFromReply(Received(f, answers)); heard == mode || heard == 255
  {
    assert SaysAt(f.replies, 0, mode);
    FirstArrived(f, answers);
    hide ModeFromReply, Received;
  }

  /** While a mode is latched, it is all the Pi can hear, once older answers are out of the way. */
  lemma LatchedHeard(j: Joint, xs: seq<Exchange>, i: nat, mode: byte)
    requires LatchedIn(j.firmware.latches, mode) && RunLatched(xs, mode) && WholeAnswers(j.firmware.replies)
    requires i < |xs| && OnlyNews(j, xs, i)
    ensures HeardIn(j, xs, i) == mode || HearsNothing(j, xs, i)
  {
    hide LatchedIn, ExchangeLatched, ModeFromReply, AfterPoll, RunJoint, AfterExchange, NewsSay, PastLeft, Received;
    LatchedNews(j, xs[..i], mode);
    LatchedThroughout(j, xs[..i], mode);
    LatchedSays(RunJoint(j, xs[..i]), xs[i], 0, mode);
    SaidFirst(AfterPoll(RunJoint(j, xs[..i]), xs[i]), xs[i].modeArrives, mode);
  }

  lemma {:induction false} FindLastHeard(j: Joint, xs: seq<Exchange>, i: nat) returns (last: nat)
    requires i < |xs| && !HearsNothing(j, xs, i)
    ensures i <= last < |xs| && LastHeard(j, xs, last)
    decreases |xs| - i
  {
    hide HearsNothing;
    if later: nat :| i < later < |xs| && !HearsNothing(j, xs, later) {
      last := FindLastHeard(j, xs, later);
    } else {
      last := i;
    }
  }

  lemma {:induction false} NewsLater(j: Joint, xs: seq<Exchange>, i: nat, later: nat)
    requires i <= later <= |xs| && OnlyNews(j, xs, i)
    ensures OnlyNews(j, xs, later)
    decreases later
  {
    hide RunJoint, StartTaken;
    if i < later {
      NewsLater(j, xs, i, later - 1);
      PrefixOfPrefix(xs, later - 1, later);
    }
  }

  /** Having heard the latched mode once, the Pi acts on it from then on. */
  lemma LatchedModeHolds(j: Joint, xs: seq<Exchange>, i: nat, mode: byte)
    requires LatchedIn(j.firmware.latches, mode) && RunLatched(xs, mode)
    requires i < |xs| && OnlyNews(j, xs, i) && !HearsNothing(j, xs, i) && WholeAnswers(j.firmware.replies)
    ensures RunJoint(j, xs).memory.state == mode
  {
    hide *;
    var last := FindLastHeard(j, xs, i);
    TheLastHeardHolds(j, xs, last);
    LastIsHeard(j, xs, last);
    NewsLater(j, xs, i, last);
    LatchedHeard(j, xs, last, mode);
  }

  lemma SameModeBefore(m: Memory, cs: seq<Cycle>, n: nat, i: nat)
    requires i < n <= |cs|
    ensures Interlock.ModeAt(m, cs[..n], i) == Interlock.ModeAt(m, cs, i)
  {
    PrefixOfPrefix(cs, i, n);
    hide MemoryAfter, ModeIn;
  }

  /** The mode the last cycle acts on is the one in memory afterwards. */
  lemma StateAfter(m: Memory, cs: seq<Cycle>)
    requires cs != []
    ensures MemoryAfter(m, cs).state == Interlock.ModeAt(m, cs, |cs| - 1)
  {
    hide ModeIn, DecisionIn;
  }

  lemma ModeAtIs(j: Joint, xs: seq<Exchange>, n: nat)
    requires n < |xs|
    ensures Interlock.ModeAt(j.memory, JointCycles(j, xs), n) == RunJoint(j, xs[..n + 1]).memory.state
  {
    hide *;
    JointMemory(j, xs[..n + 1]);
    CyclesPrefix(j, xs, n + 1);
    StateAfter(j.memory, JointCycles(j, xs[..n + 1]));
    SameModeBefore(j.memory, JointCycles(j, xs), n + 1, n);
  }

  lemma LatchedBefore(xs: seq<Exchange>, n: nat, mode: byte)
    requires n <= |xs| && RunLatched(xs, mode)
    ensures RunLatched(xs[..n], mode)
  {
    hide ExchangeLatched;
  }

  lemma LatchedModeAfter(j: Joint, xs: seq<Exchange>, i: nat, n: nat, mode: byte)
    requires LatchedIn(j.firmware.latches, mode) && RunLatched(xs, mode)
    requires i < n <= |xs| && OnlyNews(j, xs, i) && !HearsNothing(j, xs, i) && WholeAnswers(j.firmware.replies)
    ensures RunJoint(j, xs[..n]).memory.state == mode
  {
    hide *;
    PrefixHeard(j, xs, n, i);
    PrefixNews(j, xs, n, i);
    LatchedBefore(xs, n, mode);
    LatchedModeHolds(j, xs[..n], i, mode);
  }

  lemma LatchedModeAt(j: Joint, xs: seq<Exchange>, i: nat, n: nat, mode: byte)
    requires LatchedIn(j.firmware.latches, mode) && RunLatched(xs, mode)
    requires i <= n < |xs| && OnlyNews(j, xs, i) && !HearsNothing(j, xs, i) && WholeAnswers(j.firmware.replies)
    ensures Interlock.ModeAt(j.memory, JointCycles(j, xs), n) == mode
  {
    hide *;
    LatchedModeAfter(j, xs, i, n + 1, mode);
    ModeAtIs(j, xs, n);
  }

  lemma PrefixNews(j: Joint, xs: seq<Exchange>, n: nat, i: nat)
    requires i <= n <= |xs| && OnlyNews(j, xs, i)
    ensures OnlyNews(j, xs[..n], i)
  {
    PrefixOfPrefix(xs, i, n);
    hide PastLeft;
  }

  lemma CyclesFront(j: Joint, xs: seq<Exchange>)
    requires xs != []
    ensures JointCycles(j, xs)[..|xs| - 1] == JointCycles(j, xs[..|xs| - 1])
  {
    hide CycleIn, RunJoint;
  }

  lemma {:induction false} CyclesPrefix(j: Joint, xs: seq<Exchange>, n: nat)
    requires n <= |xs|
    ensures JointCycles(j, xs)[..n] == JointCycles(j, xs[..n])
  {
    hide *;
    if n < |xs| {
      var front := xs[..|xs| - 1];
      CyclesPrefix(j, front, n);
      CyclesFront(j, xs);
      PrefixOfPrefix(xs, n, |xs| - 1);
      PrefixOfPrefix(JointCycles(j, xs), n, |xs| - 1);
    } else {
      assert xs[..n] == xs;
    }
  }

  /** Once the line is empty the pins realise all that was sent. */
  lemma AllObeyed(f: Progress, ms: seq<Coaster.Message>, a: Actuators)
    requires OnLine(f, ms, a) && f.rx == []
    ensures Realises(f.board, ObeyAll(ms, a))
  {
    var k: nat :| Reached(f, ms, a, k);
    NothingPending(ms[k..]);
    assert ms[..k] == ms;
    hide Pending, ObeyAll, Realises;
  }

  /** And so the motor pins stand where the cycles of the run leave their powers. */
  lemma PinsAfterRun(j: Joint, xs: seq<Exchange>, ms: seq<Coaster.Message>, a: Actuators)
    requires OnLine(j.firmware, ms, a) && CommandingRun(j, xs) && RunJoint(j, xs).firmware.rx == []
    ensures var after := ActuatorsAfter(j.memory, ObeyAll(ms, a), JointCycles(j, xs));
            && RunJoint(j, xs).firmware.board.dcStation == after.station
            && RunJoint(j, xs).firmware.board.dcHill == after.liftHill
  {
    hide *;
    JointPins(j, xs, ms, a);
    var sent := SentOver(j.memory, JointCycles(j, xs));
    AllObeyed(RunJoint(j, xs).firmware, ms + sent, a);
    ObeyAllAppend(ms, sent, a);
    ActuatorsObeyTheLog(j.memory, ObeyAll(ms, a), JointCycles(j, xs));
    PinsOf(RunJoint(j, xs).firmware.board, ActuatorsAfter(j.memory, ObeyAll(ms, a), JointCycles(j, xs)));
  }

  lemma PinsOf(b: Board, a: Actuators)
    requires Realises(b, a)
    ensures b.dcStation == a.station && b.dcHill == a.liftHill
  {
  }

  // --------------------------------------------------------------- an emergency stop, end to end

  /** The last cycle of a run acting on STOP leaves both motors off. */
  lemma StopAtTheEnd(m: Memory, a: Actuators, cs: seq<Cycle>)
    requires cs != [] && MemoryAfter(m, cs).state == STOP
    ensures ActuatorsAfter(m, a, cs).station == 0 && ActuatorsAfter(m, a, cs).liftHill == 0
  {
    var n := |cs| - 1;
    var m', a' := MemoryAfter(m, cs[..n]), ActuatorsAfter(m, a, cs[..n]);
    hide Decide, ObeyAll, Overlay;
    CycleEffectWithPoll(m', cs[n], a');
    CycleEffect(STOP, cs[n].zones, m'.releaseGo, StartFromReply(1, cs[n].startReply), a');
    hide SentIn, StartFromReply, ModeIn;
  }

  /** Every sample of the iteration has ESTOP high and the ignition on, and the return to safe is not latched. */
  predicate SeesEstop(f: Progress, slot: Slot) {
    !f.latches.returnToSafe && Traces.EstopHeld(slot.samples) && slot.samples.ignition && slot.samples.ignitionInStop
  }

  lemma EstopLatches(f: Progress, held: Slot)
    requires SeesEstop(f, held) && !f.stuck
    ensures ModeOf(f.latches, held.samples) == STOP && LatchedIn(Tick(f.latches, held.samples), STOP)
  {
  }

  lemma ReachedOneMore(f: Progress, q: Progress, ms: seq<Coaster.Message>, a: Actuators, k: nat)
    requires Reached(f, ms, a, k) && k < |ms| && Pending(q.rx, ms[k..][1..]) && q.board == Enact(ms[k..][0], f.board)
    ensures Reached(q, ms, a, k + 1)
  {
    var b := ObeyAll(ms[..k], a);
    hide Realises, Pending, ObeyAll, Enact, Obey;
    assert ms[k..][1..] == ms[k + 1..] && ms[..k + 1] == ms[..k] + [ms[k]];
    ObeyAllAppend(ms[..k], [ms[k]], a);
    OneObeyed(ms[k], b);
    EnactRealises(ms[k], f.board, b);
  }

  lemma OneMoreObeyed(f: Progress, slot: Slot, ms: seq<Coaster.Message>, a: Actuators)
    requires OnLine(f, ms, a) && ModeOf(f.latches, slot.samples) != MAINTENANCE
    ensures OnLine(Advance(f, slot), ms, a) && Advance(f, slot).latches == Tick(f.latches, slot.samples)
  {
    var k: nat :| Reached(f, ms, a, k);
    var q := Advance(f, slot);
    hide Tick, ModeOf, Realises, Pending, ObeyAll, Advance, Enact;
    OneIteration(f, slot, ms[k..]);
    if Pending(q.rx, ms[k..]) && q.board == f.board {
      assert Reached(q, ms, a, k);
    } else {
      ReachedOneMore(f, q, ms, a, k);
    }
  }

  lemma WholeOnes(p: Progress, slot: Slot)
    requires WholeAnswers(p.replies)
    ensures WholeAnswers(Advance(p, slot).replies)
  {
    OneReply(p, slot);
    hide Advance, Iterate, ModeOf;
  }

  lemma OneObeyed(m: Coaster.Message, a: Actuators)
    ensures ObeyAll([m], a) == Obey(m, a)
  {
  }

  /**
   * The emergency stop, end to end. Let ESTOP be high for a whole iteration of the firmware, with the
   * ignition on and the return to safe not latched, whatever is on the line in either direction. As
   * long as nobody resets it and the ignition stays on, once the Pi has heard an answer given since,
   * and the bytes it has sent have been read, both motor pins stand at 0, at the end of that cycle
   * and of every later one. `SafeMotorsExactly` is the other case.
   */
  lemma EstopStopsTheMotors(j: Joint, held: Slot, xs: seq<Exchange>, i: nat, ms: seq<Coaster.Message>, a: Actuators)
    requires OnLine(j.firmware, ms, a) && SeesEstop(j.firmware, held) && RunLatched(xs, STOP)
    requires WholeAnswers(j.firmware.replies)
    requires var after := j.(firmware := Advance(j.firmware, held));
             && i < |xs| && OnlyNews(after, xs, i) && !HearsNothing(after, xs, i)
             && RunJoint(after, xs).firmware.rx == []
    ensures var end := RunJoint(j.(firmware := Advance(j.firmware, held)), xs);
            end.memory.state == STOP && end.firmware.board.dcStation == 0 && end.firmware.board.dcHill == 0
  {
    EstopLatches(j.firmware, held);
    OneMoreObeyed(j.firmware, held, ms, a);
    WholeOnes(j.firmware, held);
    var after := j.(firmware := Advance(j.firmware, held));
    hide *;
    LatchedModeHolds(after, xs, i, STOP);
    LatchedObeys(after, xs, STOP);
    JointMemory(after, xs);
    PinsAfterRun(after, xs, ms, a);
    StopAtTheEnd(after.memory, ObeyAll(ms, a), JointCycles(after, xs));
  }

  // ------------------------------------------------- and when the return to safe is latched instead

  /** Some cycle from `first` on sees the lift hill not ENTERING. */
  predicate HillSeenClear(cs: seq<Cycle>, first: nat) {
    exists n :: first <= n < |cs| && cs[n].zones.liftHill != Entering
  }

  lemma HillSeenClearStep(cs: seq<Cycle>, first: nat)
    requires first < |cs|
    ensures var n := |cs| - 1;
            HillSeenClear(cs, first) <==> cs[n].zones.liftHill != Entering || HillSeenClear(cs[..n], first)
  {
    var n := |cs| - 1;
    if i :| first <= i < n && cs[..n][i].zones.liftHill != Entering {
      assert cs[i].zones.liftHill != Entering;
    }
    if i :| first <= i < |cs| && cs[i].zones.liftHill != Entering {
      assert i < n ==> cs[..n][i].zones.liftHill != Entering;
    }
  }

  ghost predicate SafeModes(m: Memory, cs: seq<Cycle>, first: nat) {
    forall n :: first <= n < |cs| ==> Interlock.ModeAt(m, cs, n) == RETURN_TO_SAFE
  }

  lemma SafeModesBefore(m: Memory, cs: seq<Cycle>, first: nat)
    requires first < |cs| && SafeModes(m, cs, first)
    ensures Interlock.ModeAt(m, cs, |cs| - 1) == RETURN_TO_SAFE && SafeModes(m, cs[..|cs| - 1], first)
  {
    var n := |cs| - 1;
    hide Interlock.ModeAt;
    forall i | first <= i < n
      ensures Interlock.ModeAt(m, cs[..n], i) == RETURN_TO_SAFE
    {
      SameModeBefore(m, cs, n, i);
    }
  }

  /** The motors after cycles that act on RETURN_TO_SAFE from `first` on. */
  lemma {:induction false} SafeHill(m: Memory, a: Actuators, cs: seq<Cycle>, first: nat)
    requires first < |cs| && SafeModes(m, cs, first)
    ensures HillSeenClear(cs, first) ==> ActuatorsAfter(m, a, cs).liftHill == 0
    ensures !HillSeenClear(cs, first) ==>
              ActuatorsAfter(m, a, cs).liftHill == ActuatorsAfter(m, a, cs[..first]).liftHill
    decreases |cs|
  {
    hide *;
    SafeModesBefore(m, cs, first);
    SafeCycle(m, a, cs);
    HillSeenClearStep(cs, first);
    if first < |cs| - 1 {
      SafeHill(m, a, cs[..|cs| - 1], first);
      SameStart(m, a, cs, first, |cs| - 1);
    } else {
      NothingSeen(cs[..first], first);
    }
  }

  lemma SafeCycles(m: Memory, a: Actuators, cs: seq<Cycle>, first: nat)
    requires first < |cs| && SafeModes(m, cs, first)
    ensures ActuatorsAfter(m, a, cs).station == if cs[|cs| - 1].zones.station == Entering then 128 else 0
    ensures ActuatorsAfter(m, a, cs).liftHill
            == if HillSeenClear(cs, first) then 0 else ActuatorsAfter(m, a, cs[..first]).liftHill
  {
    hide *;
    SafeModesBefore(m, cs, first);
    SafeCycle(m, a, cs);
    SafeHill(m, a, cs, first);
  }

  lemma SameStart(m: Memory, a: Actuators, cs: seq<Cycle>, first: nat, n: nat)
    requires first <= n <= |cs|
    ensures ActuatorsAfter(m, a, cs[..n][..first]) == ActuatorsAfter(m, a, cs[..first])
  {
    hide *;
    PrefixOfPrefix(cs, first, n);
  }

  lemma NothingSeen(cs: seq<Cycle>, first: nat)
    requires |cs| <= first
    ensures !HillSeenClear(cs, first)
  {
  }

  lemma SafeCycle(m: Memory, a: Actuators, cs: seq<Cycle>)
    requires cs != [] && Interlock.ModeAt(m, cs, |cs| - 1) == RETURN_TO_SAFE
    ensures var n := |cs| - 1;
            && ActuatorsAfter(m, a, cs).station == (if cs[n].zones.station == Entering then 128 else 0)
            && ActuatorsAfter(m, a, cs).liftHill
               == if cs[n].zones.liftHill == Entering then ActuatorsAfter(m, a, cs[..n]).liftHill else 0
  {
    var n := |cs| - 1;
    var m', a' := MemoryAfter(m, cs[..n]), ActuatorsAfter(m, a, cs[..n]);
    hide Decide, ObeyAll, Overlay;
    CycleEffectWithPoll(m', cs[n], a');
    CycleEffect(RETURN_TO_SAFE, cs[n].zones, m'.releaseGo, StartFromReply(1, cs[n].startReply), a');
    hide SentIn, StartFromReply, ModeIn;
  }

  lemma SafeModesThroughout(j: Joint, xs: seq<Exchange>, first: nat)
    requires j.firmware.latches.returnToSafe && RunLatched(xs, RETURN_TO_SAFE) && WholeAnswers(j.firmware.replies)
    requires first < |xs| && OnlyNews(j, xs, first) && !HearsNothing(j, xs, first)
    ensures SafeModes(j.memory, JointCycles(j, xs), first)
  {
    var cs := JointCycles(j, xs);
    assert LatchedIn(j.firmware.latches, RETURN_TO_SAFE);
    hide Interlock.ModeAt, JointCycles, RunLatched, OnlyNews, HearsNothing, LatchedIn;
    forall n | first <= n < |cs|
      ensures Interlock.ModeAt(j.memory, cs, n) == RETURN_TO_SAFE
    {
      LatchedModeAt(j, xs, first, n, RETURN_TO_SAFE);
    }
  }

  /**
   * With the return to safe latched, whether ESTOP is pressed or not: let nobody acknowledge, let the
   * Pi hear an answer given meanwhile in cycle `first`, and let the line be empty. Then the station pin is at 0
   * exactly if the last cycle does not see the station ENTERING, and the hill pin exactly if some
   * cycle since `first` saw the hill not ENTERING, or its power was 0 before.
   */
  lemma SafeMotorsExactly(j: Joint, xs: seq<Exchange>, first: nat, ms: seq<Coaster.Message>, a: Actuators)
    requires OnLine(j.firmware, ms, a) && j.firmware.latches.returnToSafe && RunLatched(xs, RETURN_TO_SAFE)
    requires first < |xs| && OnlyNews(j, xs, first) && !HearsNothing(j, xs, first) && WholeAnswers(j.firmware.replies)
    requires RunJoint(j, xs).firmware.rx == []
    ensures var b, cs := RunJoint(j, xs).firmware.board, JointCycles(j, xs);
            && RunJoint(j, xs).memory.state == RETURN_TO_SAFE
            && (b.dcStation == 0 <==> xs[|xs| - 1].zones.station != Entering)
            && (b.dcHill == 0 <==>
                  HillSeenClear(cs, first) || ActuatorsAfter(j.memory, ObeyAll(ms, a), cs[..first]).liftHill == 0)
            && (b.dcHill != 0 ==> b.dcHill == ActuatorsAfter(j.memory, ObeyAll(ms, a), cs[..first]).liftHill)
  {
    var cs := JointCycles(j, xs);
    assert LatchedIn(j.firmware.latches, RETURN_TO_SAFE);
    assert cs[|xs| - 1].zones == xs[|xs| - 1].zones;
    hide *;
    LatchedModeHolds(j, xs, first, RETURN_TO_SAFE);
    LatchedObeys(j, xs, RETURN_TO_SAFE);
    PinsAfterRun(j, xs, ms, a);
    SafeModesThroughout(j, xs, first);
    SafeCycles(j.memory, ObeyAll(ms, a), cs, first);
  }
}
