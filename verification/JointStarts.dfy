/**
 * Starts in MANUAL, both processors together: the Pi hears a press exactly when the firmware saw one,
 * and drives out no more trains than there were.
 */
module JointStarts {
  import opened Coaster
  import opened Interlock
  import opened InterlockRuns
  import opened Firmware
  import opened JointRuns

  // ------------------------------------------------------------------ what the Pi makes of a wait

  lemma StartByFirst(replies: seq<byte>, more: seq<byte>)
    requires |replies| >= 2
    ensures StartFromReply(1, replies + more) == if replies[0] == RESPOND_CAN_SEND then replies[1] else 0
  {
    assert (replies + more)[0] == replies[0] && (replies + more)[1] == replies[1];
  }

  /** What has arrived counts as a press if its first answer grants a start, and not otherwise. */
  lemma FirstStart(f: Progress, answers: nat)
    requires WholeAnswers(f.replies)
    ensures StartFromReply(1, Received(f, answers))
            == if answers > 0 && FirstOf(f.replies) != [] && FirstOf(f.replies)[0] == RESPOND_CAN_SEND
               then FirstOf(f.replies)[1] else 0
  {
    assert StartFromReply(1, []) == 0;
    var r := Received(f, answers);
    if r != [] {
      assert r[0] == f.replies[0] && r[1] == f.replies[1] && r == r[..2] + r[2..];
      hide StartFromReply;
      StartByFirst(r[..2], r[2..]);
    }
  }

  /**
   * Iteration `k` gives answer number `c`, is in MANUAL, has read a start request, and reads the start
   * button pressed.
   */
  predicate Grants(f: Progress, es: seq<Event>, k: nat, c: nat) {
    && k < |es| && es[k].Iteration? && Given(f, es[..k]) == c
    && var q, s := Replay(f, es[..k]), es[k].slot.samples;
       && !q.stuck && ModeOf(q.latches, s) == MANUAL && s.startButton
       && var o := Iterate(q.latches, q.rx, es[k].slot);
          && o.Done? && o.message.Some?
          && At(o.message.value, 0) == SEND_CAN_SEND && At(o.message.value, 1) == 1
  }

  ghost predicate Granted(f: Progress, es: seq<Event>, c: nat) {
    exists k: nat :: Grants(f, es, k, c)
  }

  /** Only such an iteration answers a start with anything but no. */
  lemma GrantingReply(p: Progress, slot: Slot, v: byte)
    requires Iterate(p.latches, p.rx, slot).Done? && v != 0
    ensures var o := Iterate(p.latches, p.rx, slot);
            o.reply == [RESPOND_CAN_SEND, v] <==>
            && v == 1 && ModeOf(p.latches, slot.samples) == MANUAL && slot.samples.startButton && o.message.Some?
            && At(o.message.value, 0) == SEND_CAN_SEND && At(o.message.value, 1) == 1
  {
    hide Collect, ModeOf, Tick, WritesOf, At;
  }

  lemma GivesGrant(f: Progress, es: seq<Event>, k: nat, c: nat, v: byte)
    requires v != 0
    ensures Gives(f, es, k, c, [RESPOND_CAN_SEND, v]) <==> v == 1 && Grants(f, es, k, c)
  {
    if k < |es| && es[k].Iteration? {
      var q := Replay(f, es[..k]);
      if Iterate(q.latches, q.rx, es[k].slot).Done? {
        GrantingReply(q, es[k].slot, v);
      }
    }
    hide Iterate, Replay, Given, ModeOf, At;
  }

  lemma GrantedIsGiven(f: Progress, es: seq<Event>, c: nat)
    ensures Granted(f, es, c) <==> GivenAs(f, es, c, [RESPOND_CAN_SEND, 1])
  {
    hide Gives, Grants;
    if k: nat :| Gives(f, es, k, c, [RESPOND_CAN_SEND, 1]) {
      GivesGrant(f, es, k, c, 1);
    }
    if k: nat :| Grants(f, es, k, c) {
      GivesGrant(f, es, k, c, 1);
    }
  }

  lemma GivenIsGranted(f: Progress, es: seq<Event>, c: nat, v: byte)
    requires v != 0 && GivenAs(f, es, c, [RESPOND_CAN_SEND, v])
    ensures v == 1
  {
    var k: nat :| Gives(f, es, k, c, [RESPOND_CAN_SEND, v]);
    hide Gives, Grants;
    GivesGrant(f, es, k, c, v);
  }

  /** The answer a wait acts on grants a start exactly if it was given so. */
  lemma StartNow(f: Progress, es: seq<Event>, answers: nat)
    requires f.replies == []
    ensures StartFromReply(1, Received(Replay(f, es), answers)) != 0 <==>
            answers > 0 && Granted(f, es, Taken(f, es))
  {
    var c, q := Taken(f, es), Replay(f, es);
    hide StartFromReply, Received, Given, Taken, Replay, GivenAs, Granted;
    JointRuns.Outstanding(f, es);
    FirstStart(q, answers);
    GrantedIsGiven(f, es, c);
    assert SaidIn(f, es, c) == FirstOf(q.replies);
    var first := FirstOf(q.replies);
    NumberedAnswer(f, es, c, [RESPOND_CAN_SEND, 1]);
    if first != [] && first[0] == RESPOND_CAN_SEND && first[1] != 0 {
      assert first == [RESPOND_CAN_SEND, first[1]];
      NumberedAnswer(f, es, c, first);
      GivenIsGranted(f, es, c, first[1]);
    }
  }

  // ------------------------------------------------------------------------- over joint runs

  /** The cycle asks for a start. */
  predicate AsksForStart(j: Joint, x: Exchange) {
    Heard(j.memory.state, ModeReply(j, x)) == MANUAL && Authorised(x.zones, Station) && j.memory.releaseGo == 0
  }

  lemma OpensToAsk(j: Joint, x: Exchange)
    ensures OpeningOf(j, x) != [] <==> AsksForStart(j, x)
    ensures StartTaken(j, x) == if AsksForStart(j, x) then x.startArrives else 0
  {
    hide ModeReply, Heard, LiftHillManual;
  }

  /** All that has happened when cycle `i` stops waiting for a start. */
  function UntilAsked(j: Joint, xs: seq<Exchange>, i: nat): seq<Event>
    requires i < |xs|
  {
    var before := RunJoint(j, xs[..i]);
    Events(j, xs[..i]) + (Waits(xs[i]) + [Takes(xs[i].modeArrives)] + Passes(OpeningOf(before, xs[i]), xs[i].ask))
  }

  lemma ReplayToAsking(j: Joint, x: Exchange)
    ensures Replay(j.firmware, Waits(x) + [Takes(x.modeArrives)] + Passes(OpeningOf(j, x), x.ask)) == AfterAsking(j, x)
  {
    var f, a := j.firmware, Waits(x);
    var b := a + [Takes(x.modeArrives)];
    hide Passes, Window, OpeningOf, Replay, AfterTaking;
    ReplayPasses(f, [RequestButtonState], x.poll);
    ReplayJoins(f, a, [Takes(x.modeArrives)]);
    ReplayTaking(AfterPoll(j, x), x.modeArrives);
    ReplayJoins(f, b, Passes(OpeningOf(j, x), x.ask));
    ReplayPasses(AfterHearing(j, x), OpeningOf(j, x), x.ask);
  }

  lemma ReplayAsked(j: Joint, xs: seq<Exchange>, i: nat)
    requires i < |xs|
    ensures Replay(j.firmware, UntilAsked(j, xs, i)) == AfterAsking(RunJoint(j, xs[..i]), xs[i])
  {
    var before := RunJoint(j, xs[..i]);
    hide Replay, Events, Waits, AfterAsking, RunJoint, Passes, OpeningOf;
    ReplayRun(j, xs[..i]);
    ReplayToAsking(before, xs[i]);
    ReplayJoins(j.firmware, Events(j, xs[..i]),
                Waits(xs[i]) + [Takes(xs[i].modeArrives)] + Passes(OpeningOf(before, xs[i]), xs[i].ask));
  }

  lemma CycleAt(j: Joint, xs: seq<Exchange>, i: nat)
    requires i < |xs|
    ensures JointCycles(j, xs)[i] == CycleIn(RunJoint(j, xs[..i]), xs[i])
    ensures MemoryAfter(j.memory, JointCycles(j, xs)[..i]) == RunJoint(j, xs[..i]).memory
  {
    hide *;
    CyclesPrefix(j, xs, i);
    CyclesPrefix(j, xs, i + 1);
    JointMemory(j, xs[..i]);
    LastCycle(j, xs[..i + 1]);
    assert xs[..i + 1][..i] == xs[..i];
    assert JointCycles(j, xs)[..i + 1][i] == JointCycles(j, xs)[i];
  }

  lemma LastCycle(j: Joint, xs: seq<Exchange>)
    requires xs != []
    ensures var n := |xs| - 1; JointCycles(j, xs)[n] == CycleIn(RunJoint(j, xs[..n]), xs[n])
  {
    hide CycleIn, RunJoint;
  }

  /**
   * Exactly when the Pi hears a press: it asks for a start, some answer has arrived when it stops
   * waiting, and the first it has not taken before, whichever question it belongs to, was given to a
   * start request by an iteration in MANUAL that read the start button pressed.
   */
  lemma StartHeardExactly(j: Joint, xs: seq<Exchange>, i: nat)
    requires j.firmware.replies == [] && i < |xs|
    ensures var until := UntilAsked(j, xs, i);
            Pressed(j.memory, JointCycles(j, xs), i) <==>
            && AsksForStart(RunJoint(j, xs[..i]), xs[i]) && xs[i].startArrives > 0
            && Granted(j.firmware, until, Taken(j.firmware, until))
  {
    var before := RunJoint(j, xs[..i]);
    hide RunJoint, JointCycles, UntilAsked, Granted, Taken, StartFromReply, Received, AfterAsking, Heard, ModeReply,
         StartTaken, MemoryAfter;
    CycleAt(j, xs, i);
    OpensToAsk(before, xs[i]);
    ReplayAsked(j, xs, i);
    StartNow(j.firmware, UntilAsked(j, xs, i), StartTaken(before, xs[i]));
  }

  /**
   * Whatever the timing, no train is driven out of the station in MANUAL but on a start that an
   * iteration in MANUAL granted because it read the button pressed, and that no cycle has withdrawn.
   */
  lemma DriveOutNeedsButton(j: Joint, xs: seq<Exchange>, d: nat)
    requires j.firmware.replies == [] && j.memory.releaseGo == 0 && d < |xs|
    requires Dispatches(j.memory, JointCycles(j, xs), d)
    ensures exists p :: 0 <= p <= d && NoClearsBetween(j.memory, JointCycles(j, xs), p, d)
                        && Granted(j.firmware, UntilAsked(j, xs, p), Taken(j.firmware, UntilAsked(j, xs, p)))
  {
    hide *;
    InForce(j.memory, JointCycles(j, xs), d);
    var p := PressBehind(j.memory, JointCycles(j, xs), d);
    StartHeardExactly(j, xs, p);
  }

  // ------------------------------------------------------------------------------- counting

  /** How many of the first `n` answers grant a start: iterations in MANUAL that read the button pressed. */
  function Grantings(f: Progress, es: seq<Event>, n: nat): nat {
    if es == [] then 0
    else
      var k := |es| - 1;
      var c := Given(f, es[..k]);
      Grantings(f, es[..k], n) + if c < n && Grants(f, es, k, c) then 1 else 0
  }

  lemma {:induction false} MoreEventsGrant(f: Progress, es: seq<Event>, more: seq<Event>, n: nat)
    ensures Grantings(f, es, n) <= Grantings(f, es + more, n)
    decreases |more|
  {
    if more == [] {
      assert es + more == es;
    } else {
      var k := |more| - 1;
      assert (es + more)[..|es + more| - 1] == es + more[..k];
      hide Grants, Given;
      MoreEventsGrant(f, es, more[..k], n);
    }
  }

  lemma {:induction false} MoreAnswersGrant(f: Progress, es: seq<Event>, n: nat, more: nat)
    requires n <= more
    ensures Grantings(f, es, n) <= Grantings(f, es, more)
  {
    if es != [] {
      hide Grants, Given;
      MoreAnswersGrant(f, es[..|es| - 1], n, more);
    }
  }

  lemma GrantsBefore(f: Progress, es: seq<Event>, k: nat, c: nat)
    requires Grants(f, es, k, c) && k < |es| - 1
    ensures Grants(f, es[..|es| - 1], k, c)
  {
    assert es[..|es| - 1][..k] == es[..k];
    hide Iterate, Replay, Given, ModeOf, At;
  }

  lemma GrantsWhere(f: Progress, es: seq<Event>, k: nat, c: nat)
    requires Grants(f, es, k, c)
    ensures k < |es| && Given(f, es[..k]) == c
  {
    hide Iterate, Replay, Given, ModeOf, At;
  }

  /** One more granted answer counts. */
  lemma {:induction false} OneMoreGrant(f: Progress, es: seq<Event>, k: nat, c: nat, n: nat, more: nat)
    requires Grants(f, es, k, c) && n <= c < more
    ensures Grantings(f, es, n) + 1 <= Grantings(f, es, more)
    decreases |es|
  {
    hide Grants, Given;
    GrantsWhere(f, es, k, c);
    if k == |es| - 1 {
      MoreAnswersGrant(f, es[..k], n, more);
    } else {
      GrantsBefore(f, es, k, c);
      OneMoreGrant(f, es[..|es| - 1], k, c, n, more);
    }
  }

  /** The events of a cycle go on after its second wait. */
  lemma EventsAround(j: Joint, xs: seq<Exchange>)
    requires xs != []
    ensures var n := |xs| - 1;
            var before := RunJoint(j, xs[..n]);
            && Events(j, xs[..n]) <= UntilAsked(j, xs, n)
            && UntilAsked(j, xs, n) + [Takes(StartTaken(before, xs[n]))] <= Events(j, xs)
  {
    var n := |xs| - 1;
    var before := RunJoint(j, xs[..n]);
    var a, b, c := Waits(xs[n]), [Takes(xs[n].modeArrives)], Passes(OpeningOf(before, xs[n]), xs[n].ask);
    var d, e := [Takes(StartTaken(before, xs[n]))], Passes(Remaining(before, xs[n]), xs[n].rest);
    assert Events(j, xs) == Events(j, xs[..n]) + (a + b + c + d + e) by {
      hide Waits, Passes, RunJoint, OpeningOf, StartTaken, Remaining;
    }
    assert UntilAsked(j, xs, n) == Events(j, xs[..n]) + (a + b + c) by {
      hide Waits, Passes, RunJoint, OpeningOf, StartTaken, Remaining, Events;
    }
    hide *;
    PrefixOfThree(Events(j, xs[..n]), a + b + c, d, e);
  }

  lemma PrefixOfThree<T>(s: seq<T>, a: seq<T>, b: seq<T>, c: seq<T>)
    ensures s <= s + a && s + a + b <= s + (a + b + c)
  {
    assert s + (a + b + c) == s + a + b + c;
  }

  /** An answer that grants a start has been given. */
  lemma GrantIsGiven(f: Progress, es: seq<Event>, c: nat)
    requires f.replies == [] && Granted(f, es, c)
    ensures Given(f, es) >= c + 1
  {
    hide *;
    var k := GrantedBy(f, es, c);
    GrantsWhere(f, es, k, c);
    GivesGrant(f, es, k, c, 1);
    SpokenAt(f, es, k, c, [RESPOND_CAN_SEND, 1]);
    assert es[..k + 1] + es[k + 1..] == es;
    CountsGrow(f, es[..k + 1], es[k + 1..]);
  }

  /** Taking an answer that was given is taking at least that one. */
  lemma TakingGrant(f: Progress, es: seq<Event>, answers: nat)
    requires f.replies == [] && answers > 0 && Granted(f, es, Taken(f, es))
    ensures Taken(f, es + [Takes(answers)]) >= Taken(f, es) + 1
  {
    hide *;
    GrantIsGiven(f, es, Taken(f, es));
    CountStep(f, es, Takes(answers));
  }

  lemma GrowTo(f: Progress, es: seq<Event>, all: seq<Event>)
    requires f.replies == [] && es <= all
    ensures Taken(f, es) <= Taken(f, all)
    ensures forall n: nat :: Grantings(f, es, n) <= Grantings(f, all, n)
  {
    assert es + all[|es|..] == all;
    hide Given, Taken, Grantings;
    CountsGrow(f, es, all[|es|..]);
    forall n: nat
      ensures Grantings(f, es, n) <= Grantings(f, all, n)
    {
      MoreEventsGrant(f, es, all[|es|..], n);
    }
  }

  /** What one cycle adds to the count, if it takes a granted answer. */
  lemma PressCounts(f: Progress, was: seq<Event>, until: seq<Event>, answers: nat, now: seq<Event>)
    requires f.replies == [] && was <= until && until + [Takes(answers)] <= now
    requires answers > 0 && Granted(f, until, Taken(f, until))
    ensures Grantings(f, was, Taken(f, was)) + 1 <= Grantings(f, now, Taken(f, now))
  {
    hide *;
    var k := GrantedBy(f, until, Taken(f, until));
    GrowTo(f, was, until);
    TakingGrant(f, until, answers);
    GrowTo(f, until + [Takes(answers)], now);
    OneMoreGrant(f, until, k, Taken(f, until), Taken(f, was), Taken(f, now));
    GrowTo(f, until, now);
  }

  lemma NothingLost(f: Progress, was: seq<Event>, now: seq<Event>)
    requires f.replies == [] && was <= now
    ensures Grantings(f, was, Taken(f, was)) <= Grantings(f, now, Taken(f, now))
  {
    hide *;
    GrowTo(f, was, now);
    MoreAnswersGrant(f, was, Taken(f, was), Taken(f, now));
  }

  lemma CycleGrants(j: Joint, xs: seq<Exchange>)
    requires xs != [] && j.firmware.replies == []
    ensures var f, n := j.firmware, |xs| - 1;
            var was, now := Events(j, xs[..n]), Events(j, xs);
            Grantings(f, was, Taken(f, was)) + (if Pressed(j.memory, JointCycles(j, xs), n) then 1 else 0)
            <= Grantings(f, now, Taken(f, now))
  {
    var f, n := j.firmware, |xs| - 1;
    hide *;
    EventsAround(j, xs);
    if Pressed(j.memory, JointCycles(j, xs), n) {
      StartHeardExactly(j, xs, n);
      OpensToAsk(RunJoint(j, xs[..n]), xs[n]);
      PressCounts(f, Events(j, xs[..n]), UntilAsked(j, xs, n), xs[n].startArrives, Events(j, xs));
    } else {
      NothingLost(f, Events(j, xs[..n]), Events(j, xs));
    }
  }

  lemma GrantedBy(f: Progress, es: seq<Event>, c: nat) returns (k: nat)
    requires Granted(f, es, c)
    ensures Grants(f, es, k, c)
  {
    hide Grants;
    k :| Grants(f, es, k, c);
  }

  lemma TallyStep(m: Memory, cs: seq<Cycle>)
    requires cs != []
    ensures var n := |cs| - 1;
            TallyAfter(m, cs).presses == TallyAfter(m, cs[..n]).presses + if Pressed(m, cs, n) then 1 else 0
  {
    hide Pressed, Dispatches;
  }

  /** Each press heard is a different answer, so the presses heard are no more than the starts granted. */
  lemma {:induction false} PressesAreGranted(j: Joint, xs: seq<Exchange>)
    requires j.firmware.replies == []
    ensures var es := Events(j, xs);
            TallyAfter(j.memory, JointCycles(j, xs)).presses <= Grantings(j.firmware, es, Taken(j.firmware, es))
  {
    hide AfterExchange, EventsIn, Grantings, Taken, Pressed, Dispatches, CycleIn;
    if xs != [] {
      var n := |xs| - 1;
      PressesAreGranted(j, xs[..n]);
      CycleGrants(j, xs);
      CyclesFront(j, xs);
      TallyStep(j.memory, JointCycles(j, xs));
    }
  }

  /**
   * One press, at most one dispatch, from the button to the motor: if each departure is seen in time,
   * the stays from which a train is driven out in MANUAL never outnumber the firmware's iterations
   * in MANUAL that read the start button pressed, however late their answers arrive.
   */
  lemma ButtonsBoundDispatches(j: Joint, xs: seq<Exchange>)
    requires j.firmware.replies == [] && j.memory.releaseGo == 0
    requires DeparturesSeen(j.memory, JointCycles(j, xs))
    ensures var es := Events(j, xs);
            TallyAfter(j.memory, JointCycles(j, xs)).dispatched <= Grantings(j.firmware, es, Taken(j.firmware, es))
  {
    hide *;
    PressesAreGranted(j, xs);
    OnePressAtMostOneDispatch(j.memory, JointCycles(j, xs));
  }
}
