/** Promises of the firmware over whole runs: recovery from faults, framing, and the motor bridges. */
module FirmwareTraces {
  import opened Coaster
  import opened Firmware

  // ------------------------------------------------------------------- recovery from faults

  function LatchesAt(l: Latches, trace: seq<Samples>, i: nat): Latches
    requires i <= |trace|
  {
    if i == 0 then l else Tick(LatchesAt(l, trace, i - 1), trace[i - 1])
  }

  function IterationMode(l: Latches, trace: seq<Samples>, i: nat): byte
    requires i < |trace|
  {
    ModeOf(LatchesAt(l, trace, i), trace[i])
  }

  predicate Operating(mode: byte) {
    mode == AUTOMATIC || mode == MANUAL || mode == MAINTENANCE
  }

  /** The emergency stop reads pressed in every sample of the iteration. */
  predicate EstopHeld(s: Samples) {
    s.estop && s.estopInSafe && s.estopFirst && s.estopSecond
  }

  /** The ignition reads off in every sample of the iteration. */
  predicate IgnitionOff(s: Samples) {
    !s.ignition && !s.checkoutIgnition && !s.ignitionInStop
  }

  /** Iteration `r` is in STOP, reads the emergency stop released and the reset button pressed. */
  predicate ResetAt(l: Latches, trace: seq<Samples>, r: nat)
    requires r < |trace|
  {
    IterationMode(l, trace, r) == STOP && !trace[r].estopFirst && !trace[r].estopSecond && trace[r].reset
  }

  /** Iteration `r` is in RETURN_TO_SAFE and reads the ignition on and the acknowledge button pressed. */
  predicate AcknowledgeAt(l: Latches, trace: seq<Samples>, r: nat)
    requires r < |trace|
  {
    IterationMode(l, trace, r) == RETURN_TO_SAFE && trace[r].checkoutIgnition && trace[r].acknowledge
  }

  /** Iteration `i` finds cause to latch the emergency stop. */
  predicate EstopRaisedAt(l: Latches, trace: seq<Samples>, i: nat)
    requires i < |trace|
  {
    var before := LatchesAt(l, trace, i);
    if IterationMode(l, trace, i) == RETURN_TO_SAFE then trace[i].estopInSafe
    else !before.recoverEstop && trace[i].estop
  }

  /** Iteration `i` finds cause to latch the return to safe. */
  predicate SafeRaisedAt(l: Latches, trace: seq<Samples>, i: nat)
    requires i < |trace|
  {
    var before := LatchesAt(l, trace, i);
    if IterationMode(l, trace, i) == STOP then !trace[i].ignitionInStop
    else !before.returnToSafe && !trace[i].ignition
  }

  lemma LatchStep(l: Latches, trace: seq<Samples>, i: nat)
    requires i < |trace|
    ensures LatchesAt(l, trace, i + 1).recoverEstop <==>
            (LatchesAt(l, trace, i).recoverEstop || EstopRaisedAt(l, trace, i)) && !ResetAt(l, trace, i)
    ensures LatchesAt(l, trace, i + 1).returnToSafe <==>
            if IterationMode(l, trace, i) == STOP then LatchesAt(l, trace, i).returnToSafe || SafeRaisedAt(l, trace, i)
            else (LatchesAt(l, trace, i).returnToSafe || SafeRaisedAt(l, trace, i)) && !AcknowledgeAt(l, trace, i)
  {
  }

  ghost predicate NoResetWithin(trace: seq<Samples>, i: nat, j: nat)
    requires j <= |trace|
  {
    forall r :: i <= r < j ==> !ResetAt(POWER_ON, trace, r)
  }

  /** Some iteration before `j` raised the emergency stop and none from that one on reset it. */
  ghost predicate RaisedAndNotReset(trace: seq<Samples>, j: nat)
    requires j <= |trace|
  {
    exists i :: 0 <= i < j && EstopRaisedAt(POWER_ON, trace, i) && NoResetWithin(trace, i, j)
  }

  lemma RaisedAndNotResetStep(trace: seq<Samples>, j: nat)
    requires j < |trace|
    ensures RaisedAndNotReset(trace, j + 1) <==>
            (RaisedAndNotReset(trace, j) || EstopRaisedAt(POWER_ON, trace, j)) && !ResetAt(POWER_ON, trace, j)
  {
    hide LatchesAt, EstopRaisedAt, ResetAt;
    if i :| 0 <= i < j && EstopRaisedAt(POWER_ON, trace, i) && NoResetWithin(trace, i, j) {
      assert !ResetAt(POWER_ON, trace, j) ==> NoResetWithin(trace, i, j + 1);
    }
    if EstopRaisedAt(POWER_ON, trace, j) && !ResetAt(POWER_ON, trace, j) {
      assert NoResetWithin(trace, j, j + 1);
    }
    if i :| 0 <= i < j + 1 && EstopRaisedAt(POWER_ON, trace, i) && NoResetWithin(trace, i, j + 1) {
      assert !ResetAt(POWER_ON, trace, j);
      assert i < j ==> NoResetWithin(trace, i, j);
    }
  }

  lemma EstopLatchStep(trace: seq<Samples>, j: nat)
    requires j < |trace| && (LatchesAt(POWER_ON, trace, j).recoverEstop <==> RaisedAndNotReset(trace, j))
    ensures LatchesAt(POWER_ON, trace, j + 1).recoverEstop <==> RaisedAndNotReset(trace, j + 1)
  {
    hide *;
    LatchStep(POWER_ON, trace, j);
    RaisedAndNotResetStep(trace, j);
  }

  /** From power-on, `RaisedAndNotReset` is exactly when the emergency stop is latched before iteration `j`. */
  lemma {:induction false} EstopLatchByHistory(trace: seq<Samples>, j: nat)
    requires j <= |trace|
    ensures LatchesAt(POWER_ON, trace, j).recoverEstop <==> RaisedAndNotReset(trace, j)
  {
    if j == 0 {
      assert !LatchesAt(POWER_ON, trace, 0).recoverEstop;
    } else {
      hide *;
      EstopLatchByHistory(trace, j - 1);
      EstopLatchStep(trace, j - 1);
    }
  }

  ghost predicate NoAcknowledgeWithin(trace: seq<Samples>, i: nat, j: nat)
    requires j <= |trace|
  {
    forall r :: i <= r < j ==> !AcknowledgeAt(POWER_ON, trace, r)
  }

  /** Since power-on, or since an iteration that found cause to return to safe, nobody has acknowledged. */
  ghost predicate UnsafeAndNotAcknowledged(trace: seq<Samples>, j: nat)
    requires j <= |trace|
  {
    || NoAcknowledgeWithin(trace, 0, j)
    || exists i :: 0 <= i < j && SafeRaisedAt(POWER_ON, trace, i) && NoAcknowledgeWithin(trace, i, j)
  }

  lemma UnsafeAndNotAcknowledgedStep(trace: seq<Samples>, j: nat)
    requires j < |trace|
    ensures UnsafeAndNotAcknowledged(trace, j + 1) <==>
            (UnsafeAndNotAcknowledged(trace, j) || SafeRaisedAt(POWER_ON, trace, j))
                && !AcknowledgeAt(POWER_ON, trace, j)
  {
    hide SafeRaisedAt, AcknowledgeAt;
    if i :| 0 <= i < j && SafeRaisedAt(POWER_ON, trace, i) && NoAcknowledgeWithin(trace, i, j) {
      assert !AcknowledgeAt(POWER_ON, trace, j) ==> NoAcknowledgeWithin(trace, i, j + 1);
    }
    if SafeRaisedAt(POWER_ON, trace, j) && !AcknowledgeAt(POWER_ON, trace, j) {
      assert NoAcknowledgeWithin(trace, j, j + 1);
    }
    if i :| 0 <= i < j + 1 && SafeRaisedAt(POWER_ON, trace, i) && NoAcknowledgeWithin(trace, i, j + 1) {
      assert !AcknowledgeAt(POWER_ON, trace, j);
      assert i < j ==> NoAcknowledgeWithin(trace, i, j);
    }
  }

  lemma SafeLatchStep(l: Latches, trace: seq<Samples>, i: nat)
    requires i < |trace|
    ensures LatchesAt(l, trace, i + 1).returnToSafe <==>
            (LatchesAt(l, trace, i).returnToSafe || SafeRaisedAt(l, trace, i)) && !AcknowledgeAt(l, trace, i)
  {
    LatchStep(l, trace, i);
    hide LatchesAt, SafeRaisedAt;
  }

  lemma SafeLatchHistoryStep(trace: seq<Samples>, j: nat)
    requires j < |trace| && (LatchesAt(POWER_ON, trace, j).returnToSafe <==> UnsafeAndNotAcknowledged(trace, j))
    ensures LatchesAt(POWER_ON, trace, j + 1).returnToSafe <==> UnsafeAndNotAcknowledged(trace, j + 1)
  {
    hide *;
    SafeLatchStep(POWER_ON, trace, j);
    UnsafeAndNotAcknowledgedStep(trace, j);
  }

  /** From power-on, `UnsafeAndNotAcknowledged` is exactly when the return to safe is latched before iteration `j`. */
  lemma {:induction false} SafeLatchByHistory(trace: seq<Samples>, j: nat)
    requires j <= |trace|
    ensures LatchesAt(POWER_ON, trace, j).returnToSafe <==> UnsafeAndNotAcknowledged(trace, j)
  {
    if j == 0 {
      assert LatchesAt(POWER_ON, trace, 0).returnToSafe && NoAcknowledgeWithin(trace, 0, 0);
    } else {
      hide *;
      SafeLatchByHistory(trace, j - 1);
      SafeLatchHistoryStep(trace, j - 1);
    }
  }

  /** A latched emergency stop that is gone again by iteration `j` was reset in between. */
  lemma {:induction false} ResetBetween(l: Latches, trace: seq<Samples>, i: nat, j: nat)
    requires i <= j <= |trace|
    requires LatchesAt(l, trace, i).recoverEstop && !LatchesAt(l, trace, j).recoverEstop
    ensures exists r :: i <= r < j && ResetAt(l, trace, r)
    decreases j
  {
    hide LatchesAt, ResetAt, EstopRaisedAt;
    LatchStep(l, trace, j - 1);
    if LatchesAt(l, trace, j - 1).recoverEstop {
      assert ResetAt(l, trace, j - 1);
    } else {
      ResetBetween(l, trace, i, j - 1);
    }
  }

  lemma {:induction false} AcknowledgeBetween(l: Latches, trace: seq<Samples>, i: nat, j: nat)
    requires i <= j <= |trace|
    requires LatchesAt(l, trace, i).returnToSafe && !LatchesAt(l, trace, j).returnToSafe
    ensures exists r :: i <= r < j && AcknowledgeAt(l, trace, r)
    decreases j
  {
    hide LatchesAt, AcknowledgeAt, SafeRaisedAt;
    LatchStep(l, trace, j - 1);
    if LatchesAt(l, trace, j - 1).returnToSafe {
      assert AcknowledgeAt(l, trace, j - 1);
    } else {
      AcknowledgeBetween(l, trace, i, j - 1);
    }
  }

  lemma FaultsLatch(l: Latches, trace: seq<Samples>, i: nat)
    requires i < |trace|
    ensures EstopHeld(trace[i]) ==> LatchesAt(l, trace, i + 1).recoverEstop
    ensures IgnitionOff(trace[i]) ==> LatchesAt(l, trace, i + 1).returnToSafe
  {
  }

  /** After an emergency stop held for a whole iteration, no operating mode without a reset in between. */
  lemma EstopNeedsReset(l: Latches, trace: seq<Samples>, i: nat, j: nat)
    requires i < j < |trace| && EstopHeld(trace[i]) && Operating(IterationMode(l, trace, j))
    ensures exists r :: i < r < j && ResetAt(l, trace, r)
  {
    FaultsLatch(l, trace, i);
    assert !LatchesAt(l, trace, j).recoverEstop;
    ResetBetween(l, trace, i + 1, j);
  }

  /** After the ignition was off for a whole iteration, no operating mode without an acknowledge in between. */
  lemma IgnitionNeedsAcknowledge(l: Latches, trace: seq<Samples>, i: nat, j: nat)
    requires i < j < |trace| && IgnitionOff(trace[i]) && Operating(IterationMode(l, trace, j))
    ensures exists r :: i < r < j && AcknowledgeAt(l, trace, r)
  {
    FaultsLatch(l, trace, i);
    assert !LatchesAt(l, trace, j).returnToSafe;
    AcknowledgeBetween(l, trace, i + 1, j);
  }

  /** When both faults hit the same iteration, the acknowledge comes before the reset. */
  lemma AcknowledgeBeforeReset(l: Latches, trace: seq<Samples>, i: nat, j: nat)
    requires i < j < |trace| && EstopHeld(trace[i]) && IgnitionOff(trace[i]) && Operating(IterationMode(l, trace, j))
    ensures exists a, r :: i < a < r < j && AcknowledgeAt(l, trace, a) && ResetAt(l, trace, r)
  {
    EstopNeedsReset(l, trace, i, j);
    FaultsLatch(l, trace, i);
    var r :| i < r < j && ResetAt(l, trace, r);
    assert !LatchesAt(l, trace, r).returnToSafe;
    AcknowledgeBetween(l, trace, i + 1, r);
    var a :| i + 1 <= a < r && AcknowledgeAt(l, trace, a);
  }

  /** The first operating mode after power-on was acknowledged. */
  lemma PowerOnNeedsAcknowledge(trace: seq<Samples>, j: nat)
    requires j < |trace| && Operating(IterationMode(POWER_ON, trace, j))
    ensures exists r :: 0 <= r < j && AcknowledgeAt(POWER_ON, trace, r)
  {
    AcknowledgeBetween(POWER_ON, trace, 0, j);
  }

  /**
   * Which mode each iteration is in, by history and by the switches of that iteration alone: the
   * return to safe comes before the stop, and maintenance before manual.
   */
  lemma ModeByHistory(trace: seq<Samples>, j: nat)
    requires j < |trace|
    ensures var mode, s := IterationMode(POWER_ON, trace, j), trace[j];
            var unsafe, stopped := UnsafeAndNotAcknowledged(trace, j), RaisedAndNotReset(trace, j);
            var clear := !unsafe && !stopped && s.ignition && !s.estop;
            && (mode == RETURN_TO_SAFE <==> unsafe || (!stopped && !s.ignition))
            && (mode == STOP <==> !unsafe && (stopped || (s.ignition && s.estop)))
            && (mode == MAINTENANCE <==> clear && s.maintenanceSwitch)
            && (mode == MANUAL <==> clear && !s.maintenanceSwitch && s.manualSwitch)
            && (mode == AUTOMATIC <==> clear && !s.maintenanceSwitch && !s.manualSwitch)
  {
    EstopLatchByHistory(trace, j);
    SafeLatchByHistory(trace, j);
    hide LatchesAt, UnsafeAndNotAcknowledged, RaisedAndNotReset;
  }

  // -------------------------------------------------------------------------------- framing

  /**
   * Every message collected from a byte stream, in order, terminators included; a frame cut off at
   * the end is dropped.
   */
  function Messages(rx: seq<byte>): seq<seq<byte>>
    decreases |rx|
  {
    if rx == [] then []
    else
      CollectShrinks(rx);
      match Collect(rx)
      case Waiting => []
      case Skipped(rest) => Messages(rest)
      case Message(m, rest) => [m] + Messages(rest)
  }

  lemma {:induction false} GatherShrinks(rx: seq<byte>, msg: seq<byte>)
    requires |msg| < MAX_COLLECTED
    ensures var c := Gather(rx, msg);
            match c
            case Waiting => |rx| + |msg| < MAX_COLLECTED
            case Skipped(rest) => |rx| - |rest| + |msg| == MAX_COLLECTED && rest == rx[|rx| - |rest|..]
            case Message(m, rest) =>
              && |m| <= MAX_COLLECTED && |rest| < |rx| && |rx| - |rest| + |msg| == |m|
              && m == msg + rx[..|rx| - |rest|] && rest == rx[|rx| - |rest|..]
              && m[|m| - 1] == FRAME_END
    decreases |rx|
  {
    if rx != [] && rx[0] != FRAME_END && |msg| + 1 < MAX_COLLECTED {
      GatherShrinks(rx[1..], msg + [rx[0]]);
    }
  }

  lemma CollectShrinks(rx: seq<byte>)
    requires rx != []
    ensures Collect(rx).Skipped? ==> |Collect(rx).rest| < |rx|
    ensures Collect(rx).Message? ==> |Collect(rx).rest| < |rx|
  {
    GatherShrinks(rx[1..], []);
  }

  /**
   * On any stream the collector reads at most six bytes after a start byte and stores only those, so
   * it never writes past `msg[5]`. It waits for ever exactly when a start byte is followed by fewer
   * than six bytes, none of them an end byte.
   */
  lemma CollectorIsBounded(rx: seq<byte>)
    requires rx != []
    ensures Collect(rx).Waiting? <==> rx[0] == FRAME_START && |rx| <= MAX_COLLECTED && FRAME_END !in rx[1..]
    ensures match Collect(rx)
            case Waiting => rx[0] == FRAME_START && |rx| <= MAX_COLLECTED
            case Skipped(rest) => 1 <= |rx| - |rest| <= 1 + MAX_COLLECTED && rest == rx[|rx| - |rest|..]
            case Message(m, rest) =>
              && rx[0] == FRAME_START && 1 <= |m| <= MAX_COLLECTED && |m| < |rx|
              && m == rx[1..1 + |m|] && rest == rx[1 + |m|..]
              && m[|m| - 1] == FRAME_END && FRAME_END !in m[..|m| - 1]
  {
    CollectWaits(rx);
    if rx[0] == FRAME_START {
      var tail := rx[1..];
      GatherShrinks(tail, []);
      GatherStopsAtFirst(tail, []);
      var c := Collect(rx);
      assert c == Gather(tail, []);
      hide Gather, Collect;
      if !c.Waiting? {
        TailSlices(rx, |tail| - |c.rest|);
      }
    }
  }

  lemma TailSlices(rx: seq<byte>, k: nat)
    requires k < |rx|
    ensures rx[1..][..k] == rx[1..1 + k] && rx[1..][k..] == rx[1 + k..] && [] + rx[1..][..k] == rx[1..1 + k]
  {
  }

  lemma CollectWaits(rx: seq<byte>)
    requires rx != []
    ensures Collect(rx).Waiting? <==> rx[0] == FRAME_START && |rx| <= MAX_COLLECTED && FRAME_END !in rx[1..]
  {
    GatherWaits(rx[1..], []);
    hide Gather;
  }

  lemma {:induction false} GatherWaits(rx: seq<byte>, msg: seq<byte>)
    requires |msg| < MAX_COLLECTED
    ensures Gather(rx, msg).Waiting? <==> |rx| + |msg| < MAX_COLLECTED && FRAME_END !in rx
    decreases |rx|
  {
    if rx != [] && rx[0] != FRAME_END && |msg| + 1 < MAX_COLLECTED {
      GatherWaits(rx[1..], msg + [rx[0]]);
      assert rx == [rx[0]] + rx[1..];
    }
  }

  lemma {:induction false} GatherStopsAtFirst(rx: seq<byte>, msg: seq<byte>)
    requires |msg| < MAX_COLLECTED && FRAME_END !in msg
    ensures Gather(rx, msg).Message? ==> var m := Gather(rx, msg).message; m != [] && FRAME_END !in m[..|m| - 1]
    decreases |rx|
  {
    if rx != [] {
      if rx[0] == FRAME_END {
        assert (msg + [rx[0]])[..|msg|] == msg;
      } else if |msg| + 1 < MAX_COLLECTED {
        GatherStopsAtFirst(rx[1..], msg + [rx[0]]);
      }
    }
  }

  /** A payload the collector can carry whole. */
  predicate Carries(payload: seq<byte>) {
    1 <= |payload| < MAX_COLLECTED && FRAME_END !in payload
  }

  function FramedAll(payloads: seq<seq<byte>>): seq<byte> {
    if payloads == [] then [] else Frame(payloads[0]) + FramedAll(payloads[1..])
  }

  /** What `msg` holds when a whole payload has been collected. */
  function Stored(payloads: seq<seq<byte>>): (r: seq<seq<byte>>)
    ensures |r| == |payloads|
    ensures forall i :: 0 <= i < |r| ==> r[i] == payloads[i] + [FRAME_END]
  {
    seq(|payloads|, i requires 0 <= i < |payloads| => payloads[i] + [FRAME_END])
  }

  lemma {:induction false} GatherPayload(payload: seq<byte>, tail: seq<byte>, msg: seq<byte>)
    requires |msg| + |payload| < MAX_COLLECTED && FRAME_END !in payload
    ensures Gather(payload + [FRAME_END] + tail, msg) == Message(msg + payload + [FRAME_END], tail)
    decreases |payload|
  {
    var rx := payload + [FRAME_END] + tail;
    if payload == [] {
      assert rx[1..] == tail;
    } else {
      assert rx[1..] == payload[1..] + [FRAME_END] + tail;
      GatherPayload(payload[1..], tail, msg + [payload[0]]);
      assert msg + [payload[0]] + payload[1..] == msg + payload;
    }
  }

  /** One frame, whatever follows it, is collected in one look. */
  lemma CollectFrame(payload: seq<byte>, tail: seq<byte>)
    requires Carries(payload)
    ensures Collect(Frame(payload) + tail) == Message(payload + [FRAME_END], tail)
  {
    var rx := Frame(payload) + tail;
    assert rx[1..] == payload + [FRAME_END] + tail;
    GatherPayload(payload, tail, []);
    assert [] + payload == payload;
  }

  /** Junk without a start byte, then frames: exactly those payloads come out, in order. */
  lemma {:induction false} FramingRoundTrip(junk: seq<byte>, payloads: seq<seq<byte>>)
    requires FRAME_START !in junk
    requires forall i :: 0 <= i < |payloads| ==> Carries(payloads[i])
    ensures Messages(junk + FramedAll(payloads)) == Stored(payloads)
    decreases |payloads|, |junk|
  {
    var rx := junk + FramedAll(payloads);
    if junk != [] {
      assert rx[1..] == junk[1..] + FramedAll(payloads);
      FramingRoundTrip(junk[1..], payloads);
    } else if payloads != [] {
      assert rx == Frame(payloads[0]) + FramedAll(payloads[1..]);
      CollectFrame(payloads[0], FramedAll(payloads[1..]));
      assert [] + FramedAll(payloads[1..]) == FramedAll(payloads[1..]);
      FramingRoundTrip([], payloads[1..]);
      assert Stored(payloads) == [payloads[0] + [FRAME_END]] + Stored(payloads[1..]);
    }
  }

  /** `rest` is what is left after the first `k` bytes of the junk that precedes `frames`. */
  predicate InsideJunk(rest: seq<byte>, junk: seq<byte>, frames: seq<byte>, k: int) {
    0 < k <= |junk| && rest == junk[k..] + frames
  }

  /** `rest` is `frames` after a few bytes that cannot start a frame. */
  predicate PastFrame(rest: seq<byte>, left: seq<byte>, frames: seq<byte>) {
    FRAME_START !in left && rest == left + frames
  }

  /** Where a collection begun in junk just before a frame can end: inside the junk, or within that frame. */
  ghost predicate Lands(rest: seq<byte>, junk: seq<byte>, payload: seq<byte>, tail: seq<byte>) {
    || (exists k :: InsideJunk(rest, junk, Frame(payload) + tail, k))
    || (exists left :: PastFrame(rest, left, tail))
  }

  lemma {:induction false} GatherIntoFrame(junk: seq<byte>, payload: seq<byte>, tail: seq<byte>, msg: seq<byte>)
    requires |msg| < MAX_COLLECTED && FRAME_START !in payload
    ensures var c := Gather(junk + (Frame(payload) + tail), msg);
            !c.Waiting? && Lands(c.rest, junk, payload, tail)
    decreases |junk|
  {
    var frames := Frame(payload) + tail;
    var rx := junk + frames;
    if junk == [] {
      var left := payload + [FRAME_END];
      assert rx[1..] == left + tail;
      if |msg| + 1 < MAX_COLLECTED {
        GatherWithinFrame(payload, tail, msg + [FRAME_START]);
      } else {
        assert PastFrame(rx[1..], left, tail);
      }
    } else {
      assert rx[1..] == junk[1..] + frames;
      if junk[0] != FRAME_END && |msg| + 1 < MAX_COLLECTED {
        GatherIntoFrame(junk[1..], payload, tail, msg + [junk[0]]);
        LandsLater(Gather(rx, msg).rest, junk, payload, tail);
      } else {
        assert InsideJunk(rx[1..], junk, frames, 1);
      }
    }
  }

  lemma LandsLater(rest: seq<byte>, junk: seq<byte>, payload: seq<byte>, tail: seq<byte>)
    requires junk != [] && Lands(rest, junk[1..], payload, tail)
    ensures Lands(rest, junk, payload, tail)
  {
    hide Frame;
    if k :| InsideJunk(rest, junk[1..], Frame(payload) + tail, k) {
      assert junk[1..][k..] == junk[k + 1..];
      assert InsideJunk(rest, junk, Frame(payload) + tail, k + 1);
    }
  }

  lemma {:induction false} GatherWithinFrame(payload: seq<byte>, tail: seq<byte>, msg: seq<byte>)
    requires |msg| < MAX_COLLECTED && FRAME_START !in payload
    ensures var c := Gather(payload + [FRAME_END] + tail, msg);
            !c.Waiting? && exists left :: PastFrame(c.rest, left, tail)
    decreases |payload|
  {
    var rx := payload + [FRAME_END] + tail;
    if payload == [] {
      assert PastFrame(rx[1..], [], tail);
    } else {
      var left := payload[1..] + [FRAME_END];
      assert rx[1..] == left + tail;
      assert PastFrame(rx[1..], left, tail);
      if payload[0] != FRAME_END && |msg| + 1 < MAX_COLLECTED {
        GatherWithinFrame(payload[1..], tail, msg + [payload[0]]);
      }
    }
  }

  /** A payload that also cannot be mistaken for the start of a frame. */
  predicate CarriesCleanly(payload: seq<byte>) {
    Carries(payload) && FRAME_START !in payload
  }

  predicate EndsWith<T(==)>(s: seq<T>, t: seq<T>) {
    |t| <= |s| && s[|s| - |t|..] == t
  }

  lemma MessagesAfterCollect(rx: seq<byte>)
    requires rx != [] && !Collect(rx).Waiting?
    ensures Messages(rx) == (if Collect(rx).Message? then [Collect(rx).message] else []) + Messages(Collect(rx).rest)
  {
    hide Collect;
  }

  /** One look at a stream that has junk before the frames ends inside the junk, or loses only the first frame. */
  lemma CollectLands(junk: seq<byte>, payload: seq<byte>, tail: seq<byte>)
    requires junk != [] && CarriesCleanly(payload)
    ensures var c := Collect(junk + (Frame(payload) + tail));
            !c.Waiting? && Lands(c.rest, junk, payload, tail)
  {
    var frames := Frame(payload) + tail;
    var rx := junk + frames;
    hide Frame;
    assert rx[1..] == junk[1..] + frames;
    if junk[0] == FRAME_START {
      GatherIntoFrame(junk[1..], payload, tail, []);
      hide Lands;
      LandsLater(Collect(rx).rest, junk, payload, tail);
    } else {
      assert InsideJunk(rx[1..], junk, frames, 1);
    }
  }

  lemma StoredTail(payloads: seq<seq<byte>>)
    requires payloads != []
    ensures EndsWith(Stored(payloads), Stored(payloads[1..]))
  {
  }

  /** Whatever came before, the collector resynchronises: at most the first of the following frames is lost. */
  lemma {:induction false} Resynchronises(junk: seq<byte>, payloads: seq<seq<byte>>)
    requires payloads != [] && forall i :: 0 <= i < |payloads| ==> CarriesCleanly(payloads[i])
    ensures EndsWith(Messages(junk + FramedAll(payloads)), Stored(payloads[1..]))
    decreases |junk|
  {
    var frames := FramedAll(payloads);
    var tail := FramedAll(payloads[1..]);
    assert frames == Frame(payloads[0]) + tail;
    hide Messages, Collect, FramedAll, Frame;
    if junk == [] {
      FramingRoundTrip([], payloads);
      assert [] + frames == junk + frames;
      StoredTail(payloads);
    } else {
      var rx := junk + frames;
      var c := Collect(rx);
      CollectLands(junk, payloads[0], tail);
      if k :| InsideJunk(c.rest, junk, frames, k) {
        Resynchronises(junk[k..], payloads);
      } else {
        var left :| PastFrame(c.rest, left, tail);
        FramingRoundTrip(left, payloads[1..]);
      }
      MessagesAfterCollect(rx);
    }
  }

  // --------------------------------------------------------------------------- motor bridges

  /** Neither bridge is driven both ways, and neither is ever turned against its forward direction. */
  predicate BridgesSafe(b: Board) {
    && !(b.aForward && b.aBackward) && !(b.bForward && b.bBackward)
    && !b.aBackward && !b.bForward
  }

  /** Every board state an iteration passes through, one for each single pin write. */
  ghost predicate SafeThroughout(b: Board, ws: seq<Write>) {
    forall n :: 0 <= n <= |ws| ==> BridgesSafe(DriveAll(b, ws[..n]))
  }

  /** A write that cannot turn a bridge round. */
  predicate KeepsDirection(w: Write) {
    w.DigitalWrite? && (w.bridge == ABackward || w.bridge == BForward) ==> !w.high
  }

  lemma {:induction false} SafeThroughoutIf(b: Board, ws: seq<Write>)
    requires BridgesSafe(b) && forall i :: 0 <= i < |ws| ==> KeepsDirection(ws[i])
    ensures SafeThroughout(b, ws)
  {
    if ws == [] {
      assert ws[..0] == [];
    } else {
      var n := |ws| - 1;
      SafeThroughoutIf(b, ws[..n]);
      assert ws[..n][..n] == ws[..n];
      forall k | 0 <= k <= |ws|
        ensures BridgesSafe(DriveAll(b, ws[..k]))
      {
        if k <= n {
          assert ws[..n][..k] == ws[..k];
        } else {
          assert ws[..k] == ws && KeepsDirection(ws[n]);
        }
      }
    }
  }

  predicate AllKeepDirection(ws: seq<Write>) {
    forall i :: 0 <= i < |ws| ==> KeepsDirection(ws[i])
  }

  lemma JoinedKeepDirection(ws: seq<Write>, us: seq<Write>)
    requires AllKeepDirection(ws) && AllKeepDirection(us)
    ensures AllKeepDirection(ws + us)
  {
    hide KeepsDirection;
  }

  lemma ActuatorsKeepDirection(message: seq<byte>)
    ensures AllKeepDirection(ActuatorWrites(message))
  {
    hide At;
  }

  lemma LiftStopKeepsDirection(s: Samples)
    ensures AllKeepDirection(LiftStopWrites(s))
  {
  }

  lemma LiftStartKeepsDirection(s: Samples)
    ensures AllKeepDirection(LiftStartWrites(s))
  {
  }

  lemma MaintenanceKeepsDirection(s: Samples)
    ensures AllKeepDirection(MaintenanceWrites(s))
  {
    var open := [
      AnalogWrite(Ride1, 250), AnalogWrite(Ride2, 250), AnalogWrite(PreStation1, 180), AnalogWrite(PreStation2, 180)];
    assert AllKeepDirection(open) && AllKeepDirection(RideStopWrites(s));
    LiftStopKeepsDirection(s);
    LiftStartKeepsDirection(s);
    hide AllKeepDirection, RideStopWrites, LiftStopWrites, LiftStartWrites;
    JoinedKeepDirection(open, RideStopWrites(s));
    JoinedKeepDirection(open + RideStopWrites(s), LiftStopWrites(s));
    JoinedKeepDirection(open + RideStopWrites(s) + LiftStopWrites(s), LiftStartWrites(s));
  }

  lemma WritesKeepDirection(mode: byte, message: Option<seq<byte>>, s: Samples)
    ensures forall i :: 0 <= i < |WritesOf(mode, message, s)| ==> KeepsDirection(WritesOf(mode, message, s)[i])
  {
    MaintenanceKeepsDirection(s);
    if message.Some? {
      ActuatorsKeepDirection(message.value);
    }
    hide KeepsDirection, MaintenanceWrites, ActuatorWrites;
  }

  /**
   * From `setup` on, through every run of iterations on any bytes in any modes, no single pin write
   * leaves a bridge enabled both ways, the station bridge backward, or the hill bridge reversed.
   */
  lemma {:induction false} BridgesAlwaysSafe(p: Progress, slots: seq<Slot>, k: nat)
    requires BridgesSafe(p.board) && k < |slots|
    ensures var q := RunFirmware(p, slots[..k]);
            BridgesSafe(q.board)
            && (!q.stuck && Iterate(q.latches, q.rx, slots[k]).Done?
                ==> SafeThroughout(q.board, Iterate(q.latches, q.rx, slots[k]).writes))
    decreases k
  {
    if k == 0 {
      BridgesInOneIteration(p, slots[0]);
      assert slots[..0] == [];
    } else {
      BridgesInOneIteration(p, slots[0]);
      assert slots[..k][1..] == slots[1..][..k - 1];
      BridgesAlwaysSafe(Advance(p, slots[0]), slots[1..], k - 1);
    }
  }

  lemma BridgesInOneIteration(p: Progress, slot: Slot)
    requires BridgesSafe(p.board)
    ensures BridgesSafe(Advance(p, slot).board)
    ensures Iterate(p.latches, p.rx, slot).Done? ==> SafeThroughout(p.board, Iterate(p.latches, p.rx, slot).writes)
  {
    hide WritesOf, BridgesSafe, Collect, Tick, ModeOf, ReplyOf;
    var o := Iterate(p.latches, p.rx, slot);
    if o.Done? {
      WritesKeepDirection(o.mode, o.message, slot.samples);
      SafeThroughoutIf(p.board, o.writes);
      assert o.writes[..|o.writes|] == o.writes;
    }
  }
}
