/** Pi/brakeZone.cpp: each zone turns debounced sensor edges and `select` timeouts into a block state. */
module BrakeZones {
  import opened Coaster
  import opened EdgeEvents

  const QUIET_POLLS_TO_VACATE := 500

  /** What an edge means to a zone: which of its two sensors moved, and which way. */
  datatype LineEvent = RiseFirst | FallFirst | RiseSecond | FallSecond | Other

  datatype Lines = Lines(first: nat, second: nat)

  function Classify(lines: Lines, e: EdgeEvent): LineEvent {
    if e.offset == lines.first then
      if e.edge == Rising then RiseFirst else FallFirst
    else if e.offset == lines.second then
      if e.edge == Rising then RiseSecond else if e.edge == Falling then FallSecond else Other
    else Other
  }

  function ClassifyAll(lines: Lines, es: seq<EdgeEvent>): (ls: seq<LineEvent>)
    ensures |ls| == |es|
    ensures forall i :: 0 <= i < |es| ==> ls[i] == Classify(lines, es[i])
  {
    if es == [] then [] else ClassifyAll(lines, es[..|es| - 1]) + [Classify(lines, es[|es| - 1])]
  }

  /** The fields only the zone's own monitor thread touches. */
  datatype Monitor = Monitor(internal: ZoneState, timeouts: nat, fallLast: bool)

  /** A call of the monitor either times out (or fails) in `select`, or brings a batch of events. */
  datatype Poll = Quiet | Batch(events: seq<LineEvent>)

  const POWERED_UP := Monitor(Empty, 0, false)

  function StepLine(m: Monitor, e: LineEvent): Monitor {
    match e
    case RiseFirst => m.(fallLast := false, internal := if m.internal == Empty then Entering else m.internal)
    case FallFirst => m.(fallLast := false)
    case RiseSecond => m.(fallLast := false, internal := if m.internal == Entering then Entered else m.internal)
    case FallSecond => m.(fallLast := m.internal == Entered || m.fallLast)
    case Other => m
  }

  function StepLines(m: Monitor, es: seq<LineEvent>): Monitor {
    if es == [] then m else StepLine(StepLines(m, es[..|es| - 1]), es[|es| - 1])
  }

  function PollStep(m: Monitor, p: Poll): Monitor {
    match p
    case Quiet =>
      m.(timeouts := m.timeouts + 1,
         internal := if m.timeouts + 1 >= QUIET_POLLS_TO_VACATE && m.internal == Entered && m.fallLast
                     then Empty else m.internal)
    case Batch(es) => StepLines(m.(timeouts := 0), es)
  }

  function Run(m: Monitor, h: seq<Poll>): Monitor {
    if h == [] then m else PollStep(Run(m, h[..|h| - 1]), h[|h| - 1])
  }

  lemma {:induction false} StepLinesAppend(m: Monitor, es: seq<LineEvent>, fs: seq<LineEvent>)
    ensures StepLines(m, es + fs) == StepLines(StepLines(m, es), fs)
  {
    if fs == [] {
      assert es + fs == es;
    } else {
      var n := |fs| - 1;
      assert (es + fs)[..|es + fs| - 1] == es + fs[..n];
      StepLinesAppend(m, es, fs[..n]);
    }
  }

  // ---------------------------------------------------------------- batching does not matter

  function Flatten(batches: seq<seq<LineEvent>>): seq<LineEvent> {
    if batches == [] then [] else Flatten(batches[..|batches| - 1]) + batches[|batches| - 1]
  }

  function AsPolls(batches: seq<seq<LineEvent>>): (h: seq<Poll>)
    ensures |h| == |batches|
    ensures forall i :: 0 <= i < |h| ==> h[i] == Batch(batches[i])
  {
    seq(|batches|, i requires 0 <= i < |batches| => Batch(batches[i]))
  }

  lemma {:induction false} StepLinesKeepsTimeouts(m: Monitor, es: seq<LineEvent>)
    ensures StepLines(m, es).timeouts == m.timeouts
  {
    if es != [] {
      StepLinesKeepsTimeouts(m, es[..|es| - 1]);
    }
  }

  lemma {:induction false} BatchesRunTheStream(m: Monitor, batches: seq<seq<LineEvent>>)
    requires batches != []
    ensures Run(m, AsPolls(batches)) == StepLines(m.(timeouts := 0), Flatten(batches))
  {
    var n := |batches| - 1;
    var m0 := m.(timeouts := 0);
    assert AsPolls(batches)[..n] == AsPolls(batches[..n]);
    StepLinesAppend(m0, Flatten(batches[..n]), batches[n]);
    if n == 0 {
      assert AsPolls(batches)[..n] == [];
    } else {
      BatchesRunTheStream(m, batches[..n]);
      StepLinesKeepsTimeouts(m0, Flatten(batches[..n]));
    }
  }

  /** However a stream of edges is split into reads, with no quiet poll between, the zone ends up the same. */
  lemma BatchingDoesNotMatter(m: Monitor, split: seq<seq<LineEvent>>, other: seq<seq<LineEvent>>)
    requires split != [] && other != [] && Flatten(split) == Flatten(other)
    ensures Run(m, AsPolls(split)) == Run(m, AsPolls(other))
  {
    BatchesRunTheStream(m, split);
    BatchesRunTheStream(m, other);
  }

  // ------------------------------------------------------- vacancy, characterised by history

  function QuietTail(h: seq<Poll>): nat {
    if h == [] || h[|h| - 1] != Quiet then 0 else 1 + QuietTail(h[..|h| - 1])
  }

  lemma {:induction false} QuietTailMeans(h: seq<Poll>, n: nat)
    ensures QuietTail(h) >= n <==> |h| >= n && forall i :: |h| - n <= i < |h| ==> h[i] == Quiet
  {
    if n > 0 && h != [] && h[|h| - 1] == Quiet {
      var g := h[..|h| - 1];
      QuietTailMeans(g, n - 1);
      assert forall i :: 0 <= i < |g| ==> g[i] == h[i];
    }
  }

  /** The latest edge on either of the zone's own lines. */
  function LatestIn(es: seq<LineEvent>): Option<LineEvent> {
    if es == [] then None
    else if es[|es| - 1] != Other then Some(es[|es| - 1])
    else LatestIn(es[..|es| - 1])
  }

  function Latest(h: seq<Poll>): Option<LineEvent> {
    if h == [] then None
    else
      match h[|h| - 1]
      case Quiet => Latest(h[..|h| - 1])
      case Batch(es) => if LatestIn(es).Some? then LatestIn(es) else Latest(h[..|h| - 1])
  }

  /** Within one batch, an ENTERED zone's flag records whether the last edge was a second-sensor fall. */
  lemma {:induction false} FlagTracksLatestIn(m: Monitor, es: seq<LineEvent>)
    ensures
      var m' := StepLines(m, es);
      m'.internal == Entered ==>
        if LatestIn(es).Some? then m'.fallLast <==> LatestIn(es) == Some(FallSecond)
        else m'.internal == m.internal && m'.fallLast == m.fallLast
  {
    if es != [] {
      FlagTracksLatestIn(m, es[..|es| - 1]);
    }
  }

  lemma {:induction false} HistoryExplainsState(h: seq<Poll>)
    ensures Run(POWERED_UP, h).timeouts == QuietTail(h)
    ensures Run(POWERED_UP, h).internal == Entered ==>
              (Run(POWERED_UP, h).fallLast <==> Latest(h) == Some(FallSecond))
  {
    if h != [] {
      var g := h[..|h| - 1];
      HistoryExplainsState(g);
      match h[|h| - 1]
      case Quiet =>
      case Batch(es) =>
        StepLinesKeepsTimeouts(Run(POWERED_UP, g).(timeouts := 0), es);
        FlagTracksLatestIn(Run(POWERED_UP, g).(timeouts := 0), es);
    }
  }

  lemma BatchFacts(m: Monitor, es: seq<LineEvent>)
    ensures StepLines(m, es).timeouts == m.timeouts && (es == [] ==> StepLines(m, es) == m)
    ensures m.internal == Entered ==> StepLines(m, es).internal == Entered
  {
    StepLinesKeepsTimeouts(m, es);
    if m.internal == Entered {
      EventsNeverVacate(m, es);
    }
  }

  lemma {:induction false} EventsNeverVacate(m: Monitor, es: seq<LineEvent>)
    requires m.internal == Entered
    ensures StepLines(m, es).internal == Entered
  {
    if es != [] {
      EventsNeverVacate(m, es[..|es| - 1]);
    }
  }

  /**
   * A zone goes from ENTERED to EMPTY exactly on a quiet poll that completes at least 500 quiet
   * polls in a row, when the latest edge on its two lines was a fall of the second sensor.
   */
  lemma VacancyByHistory(h: seq<Poll>, p: Poll)
    requires Run(POWERED_UP, h).internal == Entered
    ensures Run(POWERED_UP, h + [p]).internal == Empty <==>
            && |h| + 1 >= QUIET_POLLS_TO_VACATE
            && (forall i :: |h| + 1 - QUIET_POLLS_TO_VACATE <= i <= |h| ==> (h + [p])[i] == Quiet)
            && Latest(h) == Some(FallSecond)
  {
    assert (h + [p])[..|h|] == h;
    HistoryExplainsState(h);
    QuietTailMeans(h + [p], QUIET_POLLS_TO_VACATE);
    HistoryExplainsState(h + [p]);
    match p
    case Quiet =>
    case Batch(es) =>
      EventsNeverVacate(Run(POWERED_UP, h).(timeouts := 0), es);
      assert (h + [p])[|h|] != Quiet;
  }

  predicate OnSecond(e: LineEvent) {
    e == RiseSecond || e == FallSecond
  }

  /** The latest edge of the second sensor alone: `RiseSecond` means a train is standing on it. */
  function LatestSecondIn(es: seq<LineEvent>): Option<LineEvent> {
    if es == [] then None
    else if OnSecond(es[|es| - 1]) then Some(es[|es| - 1])
    else LatestSecondIn(es[..|es| - 1])
  }

  function LatestSecond(h: seq<Poll>): Option<LineEvent> {
    if h == [] then None
    else
      match h[|h| - 1]
      case Quiet => LatestSecond(h[..|h| - 1])
      case Batch(es) => if LatestSecondIn(es).Some? then LatestSecondIn(es) else LatestSecond(h[..|h| - 1])
  }

  lemma {:induction false} LatestFallIn(es: seq<LineEvent>)
    ensures LatestIn(es) == Some(FallSecond) ==> LatestSecondIn(es) == Some(FallSecond)
    ensures LatestIn(es) == None ==> LatestSecondIn(es) == None
  {
    if es != [] {
      LatestFallIn(es[..|es| - 1]);
    }
  }

  lemma {:induction false} LatestFall(h: seq<Poll>)
    ensures Latest(h) == Some(FallSecond) ==> LatestSecond(h) == Some(FallSecond)
  {
    if h != [] {
      LatestFall(h[..|h| - 1]);
      match h[|h| - 1]
      case Quiet =>
      case Batch(es) => LatestFallIn(es);
    }
  }

  /** While a train stands on the second sensor, no number of quiet polls declares the zone empty. */
  lemma {:induction false} StandingTrainIsNeverTimedOut(h: seq<Poll>, quiet: nat)
    requires Run(POWERED_UP, h).internal == Entered && LatestSecond(h) == Some(RiseSecond)
    ensures Run(POWERED_UP, h + seq(quiet, _ => Quiet)).internal == Entered
    ensures LatestSecond(h + seq(quiet, _ => Quiet)) == Some(RiseSecond)
  {
    var wait := h + seq(quiet, _ => Quiet);
    if quiet == 0 {
      assert wait == h;
    } else {
      var before := h + seq(quiet - 1, _ => Quiet);
      assert wait == before + [Quiet];
      assert wait[..|wait| - 1] == before;
      StandingTrainIsNeverTimedOut(h, quiet - 1);
      LatestFall(before);
      VacancyByHistory(before, Quiet);
    }
  }

  function Waiting(h: seq<Poll>, quiet: nat): (w: seq<Poll>)
    ensures |w| == |h| + quiet
  {
    h + seq(quiet, _ => Quiet)
  }

  lemma {:induction false} AfterWaiting(h: seq<Poll>, quiet: nat)
    requires Run(POWERED_UP, h).internal == Entered
    ensures Latest(Waiting(h, quiet)) == Latest(h)
    ensures Run(POWERED_UP, Waiting(h, quiet)).internal
            == if Latest(h) == Some(FallSecond) && quiet >= 1 && QuietTail(h) + quiet >= QUIET_POLLS_TO_VACATE
               then Empty else Entered
    ensures Run(POWERED_UP, Waiting(h, quiet)).timeouts == QuietTail(h) + quiet
  {
    var w := Waiting(h, quiet);
    if quiet == 0 {
      assert w == h;
    } else {
      var before := Waiting(h, quiet - 1);
      assert w[..|w| - 1] == before;
      AfterWaiting(h, quiet - 1);
      HistoryExplainsState(before);
    }
    HistoryExplainsState(h);
  }

  /**
   * Waiting empties an ENTERED zone exactly when its latest edge was the exit. So a single further
   * first-sensor edge behind a train that has left strands the zone in ENTERED for good.
   */
  lemma WaitingVacates(h: seq<Poll>)
    requires Run(POWERED_UP, h).internal == Entered
    ensures (exists quiet: nat :: Run(POWERED_UP, Waiting(h, quiet)).internal == Empty)
            <==> Latest(h) == Some(FallSecond)
  {
    forall quiet: nat
      ensures Run(POWERED_UP, Waiting(h, quiet)).internal == Empty ==> Latest(h) == Some(FallSecond)
    {
      AfterWaiting(h, quiet);
    }
    AfterWaiting(h, QUIET_POLLS_TO_VACATE);
  }

  /** One train in and out, and then one more edge of the first sensor: the zone never reads EMPTY again by waiting. */
  lemma LateEdgeStrands(quiet: nat)
    ensures var passage := [Batch([RiseFirst]), Batch([RiseSecond]), Batch([FallSecond])];
            && Run(POWERED_UP, Waiting(passage, QUIET_POLLS_TO_VACATE)).internal == Empty
            && Run(POWERED_UP, Waiting(passage + [Batch([FallFirst])], quiet)).internal == Entered
  {
    var p0, p1, p2 := Batch([RiseFirst]), Batch([RiseSecond]), Batch([FallSecond]);
    var passage, late := [p0, p1, p2], [p0, p1, p2, Batch([FallFirst])];
    OneEdge(POWERED_UP, RiseFirst);
    OneEdge(Monitor(Entering, 0, false), RiseSecond);
    OneEdge(Monitor(Entered, 0, false), FallSecond);
    OneEdge(Monitor(Entered, 0, true), FallFirst);
    assert [p0][..0] == [] && [p0, p1][..1] == [p0] && passage[..2] == [p0, p1] && late[..3] == passage;
    assert passage + [Batch([FallFirst])] == late;
    hide StepLine, StepLines, PollStep, Waiting;
    assert Run(POWERED_UP, [p0]) == Monitor(Entering, 0, false);
    assert Run(POWERED_UP, [p0, p1]) == Monitor(Entered, 0, false);
    assert Run(POWERED_UP, passage) == Monitor(Entered, 0, true);
    assert Run(POWERED_UP, late) == Monitor(Entered, 0, false);
    HistoryExplainsState(passage);
    HistoryExplainsState(late);
    AfterWaiting(passage, QUIET_POLLS_TO_VACATE);
    AfterWaiting(late, quiet);
  }

  lemma OneEdge(m: Monitor, e: LineEvent)
    requires m.timeouts == 0
    ensures PollStep(m, Batch([e])) == StepLine(m, e)
  {
    assert [e][..0] == [];
    assert StepLines(m, []) == m;
  }

  // ------------------------------------------------------------------------ legal transitions

  /** A zone either keeps its state or takes the next step of EMPTY, ENTERING, ENTERED, EMPTY. */
  predicate StepsAlong(before: ZoneState, after: ZoneState) {
    || before == after
    || (before == Empty && after == Entering)
    || (before == Entering && after == Entered)
    || (before == Entered && after == Empty)
  }

  /** How many trains the zone has counted in and out. */
  datatype Census = Census(entries: nat, exits: nat)

  function CountLines(m: Monitor, es: seq<LineEvent>, c: Census): Census {
    if es == [] then c
    else
      var before := StepLines(m, es[..|es| - 1]);
      var after := StepLine(before, es[|es| - 1]);
      var c' := CountLines(m, es[..|es| - 1], c);
      Census(c'.entries + (if before.internal == Empty && after.internal == Entering then 1 else 0),
             c'.exits + (if before.internal == Entered && after.internal == Empty then 1 else 0))
  }

  function CountPolls(h: seq<Poll>): Census {
    if h == [] then Census(0, 0)
    else
      var before := Run(POWERED_UP, h[..|h| - 1]);
      var c := CountPolls(h[..|h| - 1]);
      match h[|h| - 1]
      case Quiet =>
        Census(c.entries, c.exits + if before.internal == Entered
            && PollStep(before, Quiet).internal == Empty then 1 else 0)
      case Batch(es) => CountLines(before.(timeouts := 0), es, c)
  }

  function Holding(m: Monitor): nat {
    if m.internal == Empty then 0 else 1
  }

  lemma {:induction false} LinesKeepCensus(m: Monitor, es: seq<LineEvent>, c: Census)
    requires c.entries == c.exits + Holding(m)
    ensures CountLines(m, es, c).entries == CountLines(m, es, c).exits + Holding(StepLines(m, es))
  {
    if es != [] {
      LinesKeepCensus(m, es[..|es| - 1], c);
    }
  }

  /** Every edge and every quiet poll moves along the cycle, so entries minus exits is 0 or 1. */
  lemma {:induction false} CountedInOnceCountedOutOnce(h: seq<Poll>)
    ensures CountPolls(h).entries - CountPolls(h).exits == Holding(Run(POWERED_UP, h))
  {
    if h != [] {
      var g := h[..|h| - 1];
      CountedInOnceCountedOutOnce(g);
      match h[|h| - 1]
      case Quiet =>
      case Batch(es) => LinesKeepCensus(Run(POWERED_UP, g).(timeouts := 0), es, CountPolls(g));
    }
  }

  /** Every value `internalState` takes on while a batch is worked through. */
  function LinesPath(m: Monitor, es: seq<LineEvent>): seq<ZoneState> {
    if es == [] then [] else LinesPath(m, es[..|es| - 1]) + [StepLines(m, es).internal]
  }

  /** Every value `internalState` takes on from power-up, one entry for each edge and each quiet poll. */
  function Path(h: seq<Poll>): seq<ZoneState> {
    if h == [] then [Empty]
    else
      var before := Run(POWERED_UP, h[..|h| - 1]);
      match h[|h| - 1]
      case Quiet => Path(h[..|h| - 1]) + [PollStep(before, Quiet).internal]
      case Batch(es) => Path(h[..|h| - 1]) + LinesPath(before.(timeouts := 0), es)
  }

  ghost predicate IsPath(path: seq<ZoneState>) {
    forall i :: 0 < i < |path| ==> StepsAlong(path[i - 1], path[i])
  }

  lemma {:induction false} LinesExtendPath(path: seq<ZoneState>, m: Monitor, es: seq<LineEvent>)
    requires path != [] && path[|path| - 1] == m.internal && IsPath(path)
    ensures var longer := path + LinesPath(m, es);
            IsPath(longer) && longer[|longer| - 1] == StepLines(m, es).internal
  {
    if es == [] {
      assert path + [] == path;
    } else {
      var n := |es| - 1;
      LinesExtendPath(path, m, es[..n]);
      assert path + LinesPath(m, es) == (path + LinesPath(m, es[..n])) + [StepLines(m, es).internal];
    }
  }

  /** Over every history the zone only ever moves EMPTY, ENTERING, ENTERED, EMPTY, one step at a time. */
  lemma {:induction false} MovesOnlyAlongTheCycle(h: seq<Poll>)
    ensures IsPath(Path(h)) && Path(h) != [] && Path(h)[|Path(h)| - 1] == Run(POWERED_UP, h).internal
  {
    if h != [] {
      var g := h[..|h| - 1];
      MovesOnlyAlongTheCycle(g);
      match h[|h| - 1]
      case Quiet =>
      case Batch(es) => LinesExtendPath(Path(g), Run(POWERED_UP, g).(timeouts := 0), es);
    }
  }

  // -------------------------------------------------------------- the zone over kernel records

  /**
   * The beam sensors pull their line low. The zone, told directly in terms of what the kernel
   * reports: the first line falling opens an EMPTY zone, the second falling completes the entry,
   * and the second rising while ENTERED is the exit.
   */
  function StepRecord(lines: Lines, m: Monitor, r: KernelRecord): Monitor {
    var wentHigh := r.id == KERNEL_RISING_EDGE;
    if r.offset == lines.first then
      m.(fallLast := false, internal := if !wentHigh && m.internal == Empty then Entering else m.internal)
    else if r.offset != lines.second then m
    else if wentHigh then
      m.(fallLast := m.fallLast || m.internal == Entered)
    else
      m.(fallLast := false, internal := if m.internal == Entering then Entered else m.internal)
  }

  function StepRecords(lines: Lines, m: Monitor, rs: seq<KernelRecord>): Monitor {
    if rs == [] then m else StepRecord(lines, StepRecords(lines, m, rs[..|rs| - 1]), rs[|rs| - 1])
  }

  lemma RecordStep(lines: Lines, m: Monitor, r: KernelRecord)
    ensures StepLine(m, Classify(lines, Convert(r))) == StepRecord(lines, m, r)
  {
  }

  lemma ConvertedLast(lines: Lines, rs: seq<KernelRecord>)
    requires rs != []
    ensures var n := |rs| - 1;
            ClassifyAll(lines, ConvertAll(rs))
            == ClassifyAll(lines, ConvertAll(rs[..n])) + [Classify(lines, Convert(rs[n]))]
  {
    hide Classify, Convert;
    var n := |rs| - 1;
    assert ConvertAll(rs)[..n] == ConvertAll(rs[..n]);
  }

  /** Converting a batch and running the zone on it is running the polarity-swapped zone on the raw batch. */
  lemma {:induction false} ConversionSwapsPolarity(lines: Lines, m: Monitor, rs: seq<KernelRecord>)
    ensures StepLines(m, ClassifyAll(lines, ConvertAll(rs))) == StepRecords(lines, m, rs)
  {
    if rs != [] {
      var n := |rs| - 1;
      ConversionSwapsPolarity(lines, m, rs[..n]);
      RecordStep(lines, StepRecords(lines, m, rs[..n]), rs[n]);
      ConvertedLast(lines, rs);
      hide ConvertAll, ClassifyAll, StepLine, StepRecord, Classify, Convert;
      var before, last := ClassifyAll(lines, ConvertAll(rs[..n])), Classify(lines, Convert(rs[n]));
      assert (before + [last])[..n] == before;
    }
  }

  // ---------------------------------------------------------------- the zone over monitor calls

  /** One call of the monitor: what `select` returns, and what a read would return and leave in the buffer. */
  datatype Call = Call(ready: int, rd: int, received: seq<KernelRecord>) {
    predicate Possible() {
      ready >= -1 && WithinRequest(rd, 2, 2) && |received| == Touched(rd)
    }
  }

  predicate AllCallsPossible(calls: seq<Call>) {
    forall i :: 0 <= i < |calls| ==> calls[i].Possible()
  }

  /** The poll that one call of the monitor amounts to. */
  function Observed(lines: Lines, call: Call): Poll
    requires call.Possible()
  {
    if call.ready == 0 || call.ready == -1 then Quiet
    else if ReadSucceeds(call.rd) then
      Batch(ClassifyAll(lines, ConvertAll(call.received[..call.rd / RECORD_SIZE])))
    else Batch([])
  }

  function Polls(lines: Lines, calls: seq<Call>): (h: seq<Poll>)
    requires AllCallsPossible(calls)
    ensures |h| == |calls|
    ensures forall i :: 0 <= i < |h| ==> h[i] == Observed(lines, calls[i])
  {
    seq(|calls|, i requires 0 <= i < |calls| => Observed(lines, calls[i]))
  }

  /** `select` brings nothing: it times out or fails. */
  predicate TimesOut(call: Call) {
    call.ready == 0 || call.ready == -1
  }

  /** The whole records a call brings: none if `select` brings nothing or the read fails. */
  function Brought(call: Call): seq<KernelRecord>
    requires call.Possible()
  {
    if TimesOut(call) || call.rd < RECORD_SIZE then [] else call.received[..call.rd / RECORD_SIZE]
  }

  /** The latest record on either of the zone's own lines. */
  function LatestOf(lines: Lines, rs: seq<KernelRecord>): Option<KernelRecord> {
    if rs == [] then None
    else
      var r := rs[|rs| - 1];
      if r.offset == lines.first || r.offset == lines.second then Some(r) else LatestOf(lines, rs[..|rs| - 1])
  }

  function LatestRecord(lines: Lines, calls: seq<Call>): Option<KernelRecord>
    requires AllCallsPossible(calls)
  {
    if calls == [] then None
    else
      var n := |calls| - 1;
      if LatestOf(lines, Brought(calls[n])).Some? then LatestOf(lines, Brought(calls[n]))
      else LatestRecord(lines, calls[..n])
  }

  /** The latest record says that the second line, the one at the exit, went high. */
  predicate TrainHasLeft(lines: Lines, latest: Option<KernelRecord>) {
    && latest.Some? && latest.value.offset == lines.second != lines.first && latest.value.id == KERNEL_RISING_EDGE
  }

  lemma WholeRead(call: Call)
    requires call.Possible()
    ensures ReadSucceeds(call.rd) <==> call.rd >= RECORD_SIZE
  {
  }

  /** One call of the monitor, told in what `select` returned and the raw records. */
  lemma CallRunsRecords(lines: Lines, m: Monitor, call: Call)
    requires call.Possible()
    ensures PollStep(m, Observed(lines, call))
            == if TimesOut(call) then PollStep(m, Quiet) else StepRecords(lines, m.(timeouts := 0), Brought(call))
  {
    WholeRead(call);
    ConversionSwapsPolarity(lines, m.(timeouts := 0), Brought(call));
    hide ClassifyAll, ConvertAll, ReadSucceeds;
    if !TimesOut(call) && call.rd < RECORD_SIZE {
      assert StepRecords(lines, m.(timeouts := 0), []) == m.(timeouts := 0);
    }
  }

  lemma LatestRecordMeans(lines: Lines, r: KernelRecord)
    ensures Classify(lines, Convert(r)) == Other <==> r.offset != lines.first && r.offset != lines.second
    ensures Classify(lines, Convert(r)) == FallSecond <==> TrainHasLeft(lines, Some(r))
  {
  }

  lemma {:induction false} LatestInRecords(lines: Lines, rs: seq<KernelRecord>)
    ensures var latest := LatestIn(ClassifyAll(lines, ConvertAll(rs)));
            && (latest.Some? <==> LatestOf(lines, rs).Some?)
            && (latest == Some(FallSecond) <==> TrainHasLeft(lines, LatestOf(lines, rs)))
  {
    if rs != [] {
      var n := |rs| - 1;
      LatestInRecords(lines, rs[..n]);
      LatestRecordMeans(lines, rs[n]);
      ConvertedLast(lines, rs);
      hide ConvertAll, ClassifyAll, Classify, Convert, TrainHasLeft;
      var before, last := ClassifyAll(lines, ConvertAll(rs[..n])), Classify(lines, Convert(rs[n]));
      assert (before + [last])[..n] == before;
    }
  }

  lemma LatestInCall(lines: Lines, call: Call)
    requires call.Possible()
    ensures match Observed(lines, call)
            case Quiet => TimesOut(call)
            case Batch(es) =>
              && !TimesOut(call)
              && (LatestIn(es).Some? <==> LatestOf(lines, Brought(call)).Some?)
              && (LatestIn(es) == Some(FallSecond) <==> TrainHasLeft(lines, LatestOf(lines, Brought(call))))
  {
    WholeRead(call);
    LatestInRecords(lines, Brought(call));
    hide ClassifyAll, ConvertAll, ReadSucceeds;
  }

  lemma {:induction false} LatestInCalls(lines: Lines, calls: seq<Call>)
    requires AllCallsPossible(calls)
    ensures Latest(Polls(lines, calls)) == Some(FallSecond) <==> TrainHasLeft(lines, LatestRecord(lines, calls))
  {
    if calls != [] {
      var n := |calls| - 1;
      LatestInCalls(lines, calls[..n]);
      LatestInCall(lines, calls[n]);
      assert Polls(lines, calls)[..n] == Polls(lines, calls[..n]);
      hide Observed, Brought, TrainHasLeft;
    }
  }

  /**
   * Vacancy over calls of the monitor, from power-up, in what `select` and `read` return: an ENTERED
   * zone becomes EMPTY exactly at a call that completes 500 or more in a row whose `select` timed out
   * or failed, when the latest record read on its two lines was the exit line going high. A
   * `select` that brings something ends the row even if the read then fails.
   */
  lemma VacancyByCalls(lines: Lines, calls: seq<Call>, call: Call)
    requires AllCallsPossible(calls + [call]) && AllCallsPossible(calls)
    requires Run(POWERED_UP, Polls(lines, calls)).internal == Entered
    ensures Run(POWERED_UP, Polls(lines, calls + [call])).internal == Empty <==>
            && |calls| + 1 >= 500
            && (forall i :: |calls| + 1 - 500 <= i <= |calls| ==> TimesOut((calls + [call])[i]))
            && TrainHasLeft(lines, LatestRecord(lines, calls))
  {
    var all := calls + [call];
    assert all[|calls|] == call && call.Possible();
    assert Polls(lines, all) == Polls(lines, calls) + [Observed(lines, call)];
    forall i | 0 <= i < |all|
      ensures Polls(lines, all)[i] == Quiet <==> TimesOut(all[i])
    {
      LatestInCall(lines, all[i]);
    }
    hide Observed, TimesOut, TrainHasLeft;
    VacancyByHistory(Polls(lines, calls), Observed(lines, call));
    LatestInCalls(lines, calls);
  }

  /** One of the records says that this line went low. */
  predicate WentLow(rs: seq<KernelRecord>, line: nat) {
    exists i :: 0 <= i < |rs| && rs[i].offset == line && rs[i].id != KERNEL_RISING_EDGE
  }

  lemma WentLowLast(rs: seq<KernelRecord>, line: nat)
    requires rs != []
    ensures var n := |rs| - 1;
            WentLow(rs, line) <==>
            WentLow(rs[..n], line) || (rs[n].offset == line && rs[n].id != KERNEL_RISING_EDGE)
  {
    var n := |rs| - 1;
    if i :| 0 <= i < n && rs[..n][i].offset == line && rs[..n][i].id != KERNEL_RISING_EDGE {
      assert rs[i] == rs[..n][i];
    }
    if i :| 0 <= i < |rs| && rs[i].offset == line && rs[i].id != KERNEL_RISING_EDGE {
      assert i < n ==> rs[..n][i] == rs[i];
    }
  }

  lemma {:induction false} RecordsOccupy(lines: Lines, m: Monitor, rs: seq<KernelRecord>)
    ensures var now := StepRecords(lines, m, rs).internal;
            && (m.internal == Empty ==> (now != Empty <==> WentLow(rs, lines.first)))
            && (m.internal == Entering ==>
                  now != Empty && (now == Entered <==> lines.second != lines.first && WentLow(rs, lines.second)))
            && (m.internal == Entered ==> now == Entered)
  {
    if rs != [] {
      RecordsOccupy(lines, m, rs[..|rs| - 1]);
      WentLowLast(rs, lines.first);
      WentLowLast(rs, lines.second);
      hide WentLow;
    }
  }

  /**
   * How a zone becomes occupied, in one call from any state: an EMPTY zone leaves EMPTY exactly if the
   * call brings its entry line going low, an ENTERING one becomes ENTERED exactly if it brings its
   * exit line going low, and an ENTERED one leaves ENTERED only if `select` brings nothing.
   */
  lemma OccupancyByCall(lines: Lines, m: Monitor, call: Call)
    requires call.Possible() && lines.first != lines.second
    ensures var now := PollStep(m, Observed(lines, call)).internal;
            && (m.internal == Empty ==> (now != Empty <==> WentLow(Brought(call), lines.first)))
            && (m.internal == Entering ==>
                  now != Empty && (now == Entered <==> WentLow(Brought(call), lines.second)))
            && (m.internal == Entered && now != Entered ==> now == Empty && TimesOut(call))
  {
    CallRunsRecords(lines, m, call);
    RecordsOccupy(lines, m.(timeouts := 0), Brought(call));
    hide Observed, StepRecords;
  }

  class BrakeZone {
    const sensorLines: Lines
    const eventBuff: EdgeEventBuffer
    var internalState: ZoneState
    var state: ZoneState
    var timeouts: nat
    var fallLast: bool

    ghost const powerUp: Monitor
    ghost var history: seq<Poll>

    ghost predicate Valid()
      reads this
    {
      eventBuff.Valid() && eventBuff.capacity == 2 && Machine() == Run(powerUp, history)
    }

    ghost function Machine(): Monitor
      reads this
    {
      Monitor(internalState, timeouts, fallLast)
    }

    constructor (lines: Lines, state: ZoneState)
      ensures Valid() && sensorLines == lines && history == []
      ensures this.state == state && Machine() == powerUp == Monitor(state, 0, false)
      ensures fresh(eventBuff) && fresh(eventBuff.events) && fresh(eventBuff.eventData)
    {
      this.state := state;
      this.internalState := state;
      this.sensorLines := lines;
      timeouts := 0;
      fallLast := false;
      powerUp := Monitor(state, 0, false);
      history := [];
      eventBuff := new EdgeEventBuffer(2);
    }

    /** The body of the monitor's loop over one batch. */
    method HandleEvent(event: EdgeEvent)
      modifies this`internalState, this`fallLast
      ensures Machine() == StepLine(old(Machine()), Classify(sensorLines, event))
    {
      if event.offset == sensorLines.first {
        fallLast := false;
        if event.edge == Rising {
          if internalState == Empty {
            internalState := Entering;
          }
        }
      } else if event.offset == sensorLines.second {
        if event.edge == Rising {
          fallLast := false;
          if internalState == Entering {
            internalState := Entered;
          }
        } else if event.edge == Falling {
          if internalState == Entered {
            fallLast := true;
          }
        }
      }
    }

    /** One turn of the monitor thread: `ready` is what `select` returned, the rest what a read would return. */
    method UpdateInternalState(ready: int, rd: int, received: seq<KernelRecord>)
      requires Valid() && Call(ready, rd, received).Possible()
      modifies this`internalState, this`timeouts, this`fallLast, this`history
      modifies eventBuff, eventBuff.events, eventBuff.eventData
      ensures Valid()
      ensures history == old(history) + [Observed(sensorLines, Call(ready, rd, received))]
      ensures Machine() == PollStep(old(Machine()), Observed(sensorLines, Call(ready, rd, received)))
      ensures timeouts == if ready == 0 || ready == -1 then old(timeouts) + 1 else 0
      ensures old(internalState) == Entered ==>
                (internalState == Empty <==>
                   (ready == 0 || ready == -1) && old(timeouts) + 1 >= 500 && old(fallLast))
      ensures ready != 0 && ready != -1 && rd < RECORD_SIZE ==>
                internalState == old(internalState) && fallLast == old(fallLast)
    {
      hide ClassifyAll, ConvertAll, StepLines;
      ghost var poll := Observed(sensorLines, Call(ready, rd, received));
      history := history + [poll];
      assert history[..|history| - 1] == old(history);
      if ready == 0 || ready == -1 {
        timeouts := timeouts + 1;
        if timeouts >= QUIET_POLLS_TO_VACATE && internalState == Entered && fallLast {
          if internalState == Entered {
            internalState := Empty;
          }
        }
        return;
      }
      timeouts := 0;
      var ret := ReadFd(eventBuff, 2, rd, received);
      BatchFacts(Machine(), poll.events);
      HandleBatch(ret, poll.events);
    }

    /** The monitor's loop over the events of one batch. */
    method HandleBatch(ret: int, ghost events: seq<LineEvent>)
      requires ret <= eventBuff.events.Length
      requires events == if ret < 0 then [] else ClassifyAll(sensorLines, eventBuff.events[..ret])
      modifies this`internalState, this`fallLast
      ensures Machine() == StepLines(old(Machine()), events)
    {
      var i := 0;
      while i < ret
        invariant 0 <= i <= |events|
        invariant Machine() == StepLines(old(Machine()), events[..i])
      {
        assert events[..i + 1][..i] == events[..i];
        HandleEvent(eventBuff.events[i]);
        i := i + 1;
      }
      assert events[..i] == events;
    }

    /** Called by the control thread only: copies what the monitor last wrote. */
    method UpdateState()
      modifies this`state
      ensures state == internalState
    {
      state := internalState;
    }

    method GetState() returns (ret: ZoneState)
      ensures ret == state
    {
      ret := state;
    }
  }
}
