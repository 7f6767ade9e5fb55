/** What the engine's pipeline promises of every run: determinism, conservation, backpressure and
    a draining shutdown. Safety laws are about every schedule; the last section is about every
    fair infinite one. */
module PipelineLaws {
  import opened Wrappers
  import opened Sequences
  import opened Types
  import opened Ingest
  import opened Strategy
  import opened Execution
  import opened Persist
  import opened Pipeline

  // ----- determinism -----

  /** The signals the file determines. */
  function FileSignals(c: Config): seq<Signal> {
    Signals(Sampled(c.lines, c.sampleEvery))
  }

  lemma SentPrefix(c: Config, s: State)
    requires Sampling(c, s) && Flow(s)
    ensures s.log.consumed <= s.log.sent <= Sampled(c.lines, c.sampleEvery)
    ensures s.ingest == IngestDone(true) ==> s.log.sent == Sampled(c.lines, c.sampleEvery)
  {
    SampledPrefix(c.lines, s.cursor, c.sampleEvery);
    if s.cursor == |c.lines| {
      assert c.lines[..s.cursor] == c.lines;
    }
  }

  /** Under every interleaving the generated signals are an initial part of what the file alone
      determines, and all of it once the file is read and the strategy has ended. */
  lemma {:induction false} ScheduleIndependence(c: Config, schedule: seq<Action>)
    ensures Run(c, schedule).log.generated <= FileSignals(c)
    ensures var s := Run(c, schedule);
            s.ingest == IngestDone(true) && s.strategy == StrategyDone ==> s.log.generated == FileSignals(c)
  {
    var s := Run(c, schedule);
    RunKeeps(c, schedule);
    SentPrefix(c, s);
    var all := Sampled(c.lines, c.sampleEvery);
    assert s.log.consumed == all[..|s.log.consumed|];
    SignalsPrefix(all, |s.log.consumed|);
    if s.ingest == IngestDone(true) && s.strategy == StrategyDone {
      assert s.log.consumed == s.log.consumed + s.ch.ticks;
    }
  }

  /** Two complete replays of one file generate the same signals, whatever the interleavings, the
      channel capacities, the risk caps and the database outcomes. */
  lemma {:induction false} ReplaysAgree(c: Config, d: Config, schedule: seq<Action>, schedule': seq<Action>)
    requires c.lines == d.lines && c.sampleEvery == d.sampleEvery
    requires Run(c, schedule).ingest == Run(d, schedule').ingest == IngestDone(true)
    requires Run(c, schedule).strategy == Run(d, schedule').strategy == StrategyDone
    ensures Run(c, schedule).log.generated == Run(d, schedule').log.generated
    ensures Run(c, schedule).log.sent == Run(d, schedule').log.sent
  {
    ScheduleIndependence(c, schedule);
    ScheduleIndependence(d, schedule');
    RunKeeps(c, schedule);
    RunKeeps(d, schedule');
    SentPrefix(c, Run(c, schedule));
    SentPrefix(d, Run(d, schedule'));
  }

  /** Under every interleaving the generated signals are the records of the crossings in the ticks
      consumed so far: side, symbol, time, confidence and size, none missing and none more. */
  lemma {:induction false} RunRecordsCrossings(c: Config, schedule: seq<Action>) returns (at: seq<nat>)
    ensures var s := Run(c, schedule);
            RecordsCrossings(s.log.consumed, s.log.generated, at) && s.log.consumed <= Sampled(c.lines, c.sampleEvery)
  {
    var s := Run(c, schedule);
    RunKeeps(c, schedule);
    SentPrefix(c, s);
    at := SignalPositions(s.log.consumed);
  }

  // ----- conservation -----

  /** The counters the engine reports, at any moment of any run. */
  lemma {:induction false} Conservation(c: Config, schedule: seq<Action>)
    ensures var s := Run(c, schedule);
            && s.m.signalCount == s.m.dropsSignal + |s.ch.signals| + s.m.shadowOrders + s.m.vetoes
                                  + (if s.strategy.OfferingSignal? then 1 else 0)
            && s.m.trades == s.m.shadowOrders
            && s.persist.attempted + s.persist.buffer + s.ch.events == s.log.enqueued
            && s.persist.persistCount + s.persist.persistErrors == |s.persist.attempted|
            && s.persist.persistCount == |s.persist.stored|
            && |s.persist.buffer| < BATCH_SIZE
            && s.m.tickCount + (if s.ingest.OfferingTick? then 1 else 0) == |s.log.sent|
            && s.m.ingestProcessed <= s.m.ingestReceived
  {
    var s := Run(c, schedule);
    RunKeeps(c, schedule);
    ParsedAreNonBlank(c.lines[..s.cursor]);
  }

  lemma {:induction false} ParsedAreNonBlank(lines: seq<Line>)
    ensures |ParsedTicks(lines)| <= NonBlank(lines)
  {
    if lines != [] {
      ParsedAreNonBlank(lines[..|lines| - 1]);
    }
  }

  // ----- risk -----

  /** Every signal of this strategy has the same notional. */
  lemma {:induction false} SignalSize(ticks: seq<Tick>, i: nat)
    requires i < |Signals(ticks)|
    ensures Notional(Signals(ticks)[i]) == 10.0
  {
    var n := |ticks| - 1;
    if i < |Signals(ticks[..n])| {
      SignalSize(ticks[..n], i);
    }
  }

  lemma {:induction false} SubsequenceMember<T>(a: seq<T>, b: seq<T>, i: nat) returns (j: nat)
    requires Subsequence(a, b) && i < |a|
    ensures j < |b| && b[j] == a[i]
    decreases |b|
  {
    var m := |b| - 1;
    if Subsequence(a, b[..m]) {
      j := SubsequenceMember(a, b[..m], i);
    } else if i == |a| - 1 {
      j := m;
    } else {
      j := SubsequenceMember(a[..|a| - 1], b[..m], i);
    }
  }

  predicate CapsAdmit(caps: RiskCaps) {
    caps.maxExposure >= 10.0 && caps.maxSymbolExposure >= 10.0 && caps.maxOpenOrders >= 1
  }

  lemma {:induction false} FittingAllOrNone(signals: seq<Signal>, caps: RiskCaps)
    requires forall i :: 0 <= i < |signals| ==> Notional(signals[i]) == 10.0
    ensures Fitting(signals, caps) == if CapsAdmit(caps) then signals else []
  {
    if signals != [] {
      FittingAllOrNone(signals[..|signals| - 1], caps);
    }
  }

  /** The risk caps never bite part of the way: the exposure of earlier orders is always back at
      zero, so a run vetoes every signal it handles or none, as the caps alone decide. */
  lemma {:induction false} VetoesAreAllOrNone(c: Config, schedule: seq<Action>)
    ensures var s := Run(c, schedule);
            if CapsAdmit(c.caps) then s.m.vetoes == 0 else s.m.shadowOrders == 0
  {
    var s := Run(c, schedule);
    RunKeeps(c, schedule);
    forall i | 0 <= i < |s.log.handled| ensures Notional(s.log.handled[i]) == 10.0 {
      assert s.log.handled[i] == s.log.delivered[i];
      var j := SubsequenceMember(s.log.delivered, Settled(s), i);
      assert Settled(s)[j] == s.log.generated[j];
      SignalSize(s.log.consumed, j);
    }
    FittingAllOrNone(s.log.handled, c.caps);
  }

  // ----- backpressure -----

  /** After ingest has ended nothing can halt the process any more. */
  lemma {:induction false} NoExit13AfterIngest(c: Config, schedule: seq<Action>)
    requires Run(c, schedule).ingest.IngestDone?
    ensures !Run(c, schedule).halted
  {
    RunKeeps(c, schedule);
  }

  function EventsPerState(s: State): nat {
    |s.log.sent| + |s.log.generated| + 2 * |s.log.handled|
  }

  ghost predicate FewEvents(s: State) {
    |s.log.enqueued|
    + (if s.ingest.OfferingTick? then 1 else 0)
    + (match s.strategy case AwaitingTick => 0 case StrategyDone => 0 case _ => 1)
    + (match s.execution case SavingOrder(_) => 2 case SavingTrade(_) => 1 case _ => 0)
    <= EventsPerState(s)
  }

  lemma FewEventsIngest(c: Config, s: State, stop: bool)
    requires FewEvents(s)
    ensures FewEvents(IngestStep(c, s, stop))
  {
  }

  lemma FewEventsStrategy(c: Config, s: State)
    requires FewEvents(s)
    ensures FewEvents(StrategyStep(c, s))
  {
  }

  lemma FewEventsExecution(c: Config, s: State)
    requires FewEvents(s)
    ensures FewEvents(ExecutionStep(c, s))
  {
  }

  lemma FewEventsNext(c: Config, s: State, a: Action)
    requires FewEvents(s)
    ensures FewEvents(Next(c, s, a))
  {
    match a {
      case PollIngest(stop) => FewEventsIngest(c, s, stop);
      case PollStrategy => FewEventsStrategy(c, s);
      case PollExecution => FewEventsExecution(c, s);
      case PollPersist(_) =>
      case FlushTimer(_) =>
    }
  }

  lemma {:induction false} RunFewEvents(c: Config, schedule: seq<Action>)
    ensures FewEvents(Run(c, schedule))
  {
    if schedule != [] {
      RunFewEvents(c, schedule[..|schedule| - 1]);
      FewEventsNext(c, Run(c, schedule[..|schedule| - 1]), schedule[|schedule| - 1]);
    }
  }

  lemma {:induction false} SignalsAtMostTicks(ticks: seq<Tick>)
    ensures |Signals(ticks)| <= |ticks|
  {
    if ticks != [] {
      SignalsAtMostTicks(ticks[..|ticks| - 1]);
    }
  }

  /** How much can ever be in flight, by the number of lines read so far. */
  ghost predicate InFlight(s: State) {
    && |s.ch.ticks| <= s.cursor
    && |s.ch.signals| + s.m.dropsSignal + (if s.strategy.OfferingSignal? then 1 else 0) <= s.cursor
    && |s.ch.events| + (if s.ingest.OfferingTick? then 1 else 0) <= 4 * s.cursor
  }

  lemma InFlightBounds(c: Config, s: State)
    requires Inv(c, s) && FewEvents(s)
    ensures InFlight(s)
  {
    SignalsAtMostTicks(s.log.consumed);
  }

  lemma {:induction false} RunInFlight(c: Config, schedule: seq<Action>)
    ensures InFlight(Run(c, schedule)) && Run(c, schedule).cursor <= |c.lines|
  {
    RunKeeps(c, schedule);
    RunFewEvents(c, schedule);
    InFlightBounds(c, Run(c, schedule));
  }

  predicate Ample(c: Config) {
    c.tickCap >= |c.lines| && c.signalCap >= |c.lines| && c.persistCap >= 4 * |c.lines|
  }

  lemma AmpleStep(c: Config, s: State, a: Action)
    requires Ample(c) && InFlight(s) && s.cursor <= |c.lines| && !s.halted && s.m.dropsSignal == 0
    ensures !Next(c, s, a).halted && Next(c, s, a).m.dropsSignal == 0
  {
  }

  /** With room for everything a file can produce, no interleaving halts or drops a signal. */
  lemma {:induction false} AmpleCapacity(c: Config, schedule: seq<Action>)
    requires Ample(c)
    ensures !Run(c, schedule).halted && Run(c, schedule).m.dropsSignal == 0
  {
    if schedule != [] {
      var past := schedule[..|schedule| - 1];
      AmpleCapacity(c, past);
      RunInFlight(c, past);
      AmpleStep(c, Run(c, past), schedule[|schedule| - 1]);
    }
  }

  // ----- shutdown -----

  datatype Task = IngestTask | StrategyTask | ExecutionTask | PersistTask | TimerTask

  function TaskOf(a: Action): Task {
    match a
    case PollIngest(_) => IngestTask
    case PollStrategy => StrategyTask
    case PollExecution => ExecutionTask
    case PollPersist(_) => PersistTask
    case FlushTimer(_) => TimerTask
  }

  /** A poll of the task would do something. */
  predicate Ready(s: State, t: Task) {
    match t
    case IngestTask => !s.ingest.IngestDone?
    case StrategyTask =>
      !s.strategy.StrategyDone? && (s.strategy == AwaitingTick ==> s.ch.ticks != [] || s.ingest.IngestDone?)
    case ExecutionTask =>
      !s.execution.ExecutionDone?
      && (s.execution == AwaitingSignal ==> s.ch.signals != [] || s.strategy.StrategyDone?)
    case PersistTask => !s.persistDone && (s.ch.events != [] || SendersDone(s))
    case TimerTask => false
  }

  /** Work left in the persist task. */
  function PersistLoad(s: State): int {
    2 * |s.ch.events| + |s.persist.buffer| + (if s.persistDone then 0 else 1)
  }

  /** Work left: each item weighs more than everything it can turn into. */
  function Measure(c: Config, s: State): int {
    16 * (|c.lines| - s.cursor)
    + (match s.ingest case Reading => 1 case OfferingTick(_) => 4 case IngestDone(_) => 0)
    + 12 * |s.ch.ticks|
    + (match s.strategy case AwaitingTick => 1 case OfferingSignal(_) => 12 case SavingSignal(_) => 4 case StrategyDone => 0)
    + 7 * |s.ch.signals|
    + (match s.execution case AwaitingSignal => 1 case SavingOrder(_) => 7 case SavingTrade(_) => 4 case ExecutionDone => 0)
    + PersistLoad(s)
  }

  predicate Terminal(s: State) {
    s.halted || s.persistDone
  }

  /** While anything is left to do, some task is ready: the pipeline cannot deadlock. */
  lemma {:induction false} SomeTaskReady(c: Config, s: State) returns (t: Task)
    requires Inv(c, s) && !Terminal(s)
    ensures Ready(s, t) && t != TimerTask
  {
    if !s.ingest.IngestDone? {
      t := IngestTask;
    } else if !s.strategy.StrategyDone? {
      t := StrategyTask;
    } else if !s.execution.ExecutionDone? {
      t := ExecutionTask;
    } else {
      t := PersistTask;
    }
  }

  /** No step adds work, and a step of a ready task removes some or halts the process. */
  ghost predicate Works(c: Config, s: State, s': State, t: Task) {
    && Measure(c, s') <= Measure(c, s)
    && (Ready(s, t) ==> s'.halted || Measure(c, s') < Measure(c, s))
  }

  /** Tasks other than `t` that were ready stay ready. */
  ghost predicate LeavesReady(s: State, s': State, t: Task) {
    forall u: Task :: u != t && Ready(s, u) ==> Ready(s', u)
  }

  lemma OfferWorks(c: Config, s: State, stop: bool)
    requires s.ingest.OfferingTick?
    ensures Works(c, s, IngestStep(c, s, stop), IngestTask)
  {
  }

  lemma IngestWorks(c: Config, s: State, stop: bool)
    ensures Works(c, s, IngestStep(c, s, stop), IngestTask)
  {
    if s.ingest.OfferingTick? {
      OfferWorks(c, s, stop);
    }
  }

  lemma ConsumeWorks(c: Config, s: State, sma: SmaState, side: Option<Side>)
    requires s.strategy == AwaitingTick && s.ch.ticks != []
    ensures Works(c, s, Consume(s, sma, side), StrategyTask)
    ensures LeavesReady(s, Consume(s, sma, side), StrategyTask)
  {
  }

  lemma StrategyWorks(c: Config, s: State)
    ensures Works(c, s, StrategyStep(c, s), StrategyTask)
    ensures LeavesReady(s, StrategyStep(c, s), StrategyTask)
  {
    if s.strategy == AwaitingTick && s.ch.ticks != [] {
      var (sma, side) := OnPrice(s.sma, s.ch.ticks[0].price);
      ConsumeWorks(c, s, sma, side);
    }
  }

  lemma ExecutionRecvWorks(c: Config, s: State)
    requires s.execution == AwaitingSignal
    ensures Works(c, s, ExecutionStep(c, s), ExecutionTask)
  {
    var s' := ExecutionStep(c, s);
    assert s'.persist == s.persist && s'.persistDone == s.persistDone && s'.ch.events == s.ch.events;
  }

  lemma ExecutionWorks(c: Config, s: State)
    ensures Works(c, s, ExecutionStep(c, s), ExecutionTask)
  {
    if s.execution == AwaitingSignal {
      ExecutionRecvWorks(c, s);
    }
  }

  /** Everything the measure counts outside the persist task. */
  ghost predicate SameUpstream(s: State, s': State) {
    && s'.cursor == s.cursor && s'.ingest == s.ingest && s'.strategy == s.strategy && s'.execution == s.execution
    && s'.ch.ticks == s.ch.ticks && s'.ch.signals == s.ch.signals
  }

  lemma PersistUnloads(s: State, outcomes: seq<bool>)
    ensures SameUpstream(s, PersistStep(s, outcomes))
    ensures PersistLoad(PersistStep(s, outcomes)) <= PersistLoad(s)
    ensures Ready(s, PersistTask) ==> PersistLoad(PersistStep(s, outcomes)) < PersistLoad(s)
  {
  }

  lemma LessLoad(c: Config, s: State, s': State)
    requires SameUpstream(s, s') && PersistLoad(s') <= PersistLoad(s)
    ensures Measure(c, s') - Measure(c, s) == PersistLoad(s') - PersistLoad(s)
  {
  }

  lemma PersistWorks(c: Config, s: State, outcomes: seq<bool>)
    ensures Works(c, s, PersistStep(s, outcomes), PersistTask)
  {
    PersistUnloads(s, outcomes);
    LessLoad(c, s, PersistStep(s, outcomes));
  }

  lemma TimerWorks(c: Config, s: State, outcomes: seq<bool>)
    ensures Works(c, s, TimerStep(s, outcomes), TimerTask)
  {
  }

  lemma IngestLeavesReady(c: Config, s: State, stop: bool)
    ensures LeavesReady(s, IngestStep(c, s, stop), IngestTask)
  {
  }

  lemma ExecutionLeavesReady(c: Config, s: State)
    ensures LeavesReady(s, ExecutionStep(c, s), ExecutionTask)
  {
  }

  lemma PersistLeavesReady(c: Config, s: State, outcomes: seq<bool>)
    ensures LeavesReady(s, PersistStep(s, outcomes), PersistTask)
  {
  }

  lemma TimerLeavesReady(c: Config, s: State, outcomes: seq<bool>)
    ensures LeavesReady(s, TimerStep(s, outcomes), TimerTask)
  {
  }

  /** One step of the run: a halted process stays as it is; otherwise the polled task works and
      the others keep their readiness; ingest does not come back. */
  ghost predicate Progresses(c: Config, s: State, s': State, t: Task) {
    && (s.halted ==> s' == s)
    && (!s.halted ==> Works(c, s, s', t) && LeavesReady(s, s', t))
    && (s.ingest.IngestDone? ==> s'.ingest.IngestDone?)
  }

  lemma {:induction false} NextProgresses(c: Config, s: State, a: Action)
    ensures Progresses(c, s, Next(c, s, a), TaskOf(a))
  {
    if !s.halted {
      match a {
        case PollIngest(stop) => IngestWorks(c, s, stop); IngestLeavesReady(c, s, stop);
        case PollStrategy => StrategyWorks(c, s);
        case PollExecution => ExecutionWorks(c, s); ExecutionLeavesReady(c, s);
        case PollPersist(outcomes) => PersistWorks(c, s, outcomes); PersistLeavesReady(c, s, outcomes);
        case FlushTimer(outcomes) => TimerWorks(c, s, outcomes); TimerLeavesReady(c, s, outcomes);
      }
    }
  }

  /** An infinite run, seen only through its states and the tasks polled. */
  ghost predicate Trace(c: Config, tr: nat -> State, task: nat -> Task) {
    forall n: nat {:trigger task(n)} :: Progresses(c, tr(n), tr(n + 1), task(n))
  }

  lemma {:induction false} WorkOnlyShrinks(c: Config, tr: nat -> State, task: nat -> Task, n: nat, m: nat)
    requires Trace(c, tr, task) && n <= m
    ensures Measure(c, tr(m)) <= Measure(c, tr(n))
    ensures tr(n).halted ==> tr(m).halted
    ensures tr(n).ingest.IngestDone? ==> tr(m).ingest.IngestDone?
    decreases m
  {
    if n < m {
      WorkOnlyShrinks(c, tr, task, n, m - 1);
      assert Progresses(c, tr(m - 1), tr(m), task(m - 1));
    }
  }

  /** A task that is ready now and polled later gets something done in between. */
  lemma {:induction false} PolledLater(c: Config, tr: nat -> State, task: nat -> Task, n: nat, m: nat)
    requires Trace(c, tr, task) && n <= m
    requires Ready(tr(n), task(m))
    ensures tr(m + 1).halted || Measure(c, tr(m + 1)) < Measure(c, tr(n))
    decreases m - n
  {
    assert Progresses(c, tr(n), tr(n + 1), task(n));
    if tr(n).halted {
      WorkOnlyShrinks(c, tr, task, n, m + 1);
    } else if task(n) == task(m) {
      WorkOnlyShrinks(c, tr, task, n + 1, m + 1);
    } else {
      PolledLater(c, tr, task, n + 1, m);
    }
  }

  function Prefix(sched: nat -> Action, n: nat): (r: seq<Action>)
    ensures |r| == n
  {
    if n == 0 then [] else Prefix(sched, n - 1) + [sched(n - 1)]
  }

  function StateAt(c: Config, sched: nat -> Action, n: nat): State {
    Run(c, Prefix(sched, n))
  }

  /** The run under a schedule is a trace. */
  lemma RunIsTrace(c: Config, sched: nat -> Action)
    ensures Trace(c, (n: nat) => StateAt(c, sched, n), (n: nat) => TaskOf(sched(n)))
  {
    forall n: nat ensures Progresses(c, StateAt(c, sched, n), StateAt(c, sched, n + 1), TaskOf(sched(n))) {
      assert Prefix(sched, n + 1)[..n] == Prefix(sched, n);
      NextProgresses(c, StateAt(c, sched, n), sched(n));
    }
  }

  ghost predicate PolledFrom(sched: nat -> Action, n: nat, t: Task) {
    exists m: nat :: n <= m && TaskOf(sched(m)) == t
  }

  /** The runtime keeps polling each of the four tasks. */
  ghost predicate Fair(sched: nat -> Action) {
    forall n: nat, t: Task :: t != TimerTask ==> PolledFrom(sched, n, t)
  }

  lemma MeasureNonnegative(c: Config, sched: nat -> Action, n: nat)
    ensures Measure(c, StateAt(c, sched, n)) >= 0
  {
    RunInFlight(c, Prefix(sched, n));
  }

  /** What a finished shutdown looks like. */
  ghost predicate Drained(c: Config, s: State) {
    && !s.halted && SendersDone(s) && s.persistDone
    && s.ch == Channels([], [], []) && s.persist.buffer == []
    && s.persist.attempted == s.log.enqueued
    && s.persist.persistCount + s.persist.persistErrors == |s.log.enqueued|
    && TicksOf(s.log.enqueued) == s.log.consumed == s.log.sent
    && s.m.signalCount == s.m.dropsSignal + s.m.shadowOrders + s.m.vetoes
    && Flat(s.tracker)
  }

  lemma DoneIsDrained(c: Config, s: State)
    requires Inv(c, s) && s.persistDone
    ensures Drained(c, s)
  {
    TicksArrived(s);
    SignalsSettled(c, s);
    AllQuiet(c, s);
  }

  lemma AllQuiet(c: Config, s: State)
    requires Backpressure(c, s) && ShutdownOrder(s) && s.persistDone
    ensures !s.halted && SendersDone(s) && s.ch == Channels([], [], []) && s.persist.buffer == []
  {
  }

  lemma TicksArrived(s: State)
    requires Flow(s) && PersistBalance(s) && ShutdownOrder(s) && s.persistDone
    ensures s.persist.attempted == s.log.enqueued && TicksOf(s.log.enqueued) == s.log.consumed == s.log.sent
    ensures s.persist.persistCount + s.persist.persistErrors == |s.log.enqueued|
  {
    assert TicksOf(s.log.enqueued) + [] == TicksOf(s.log.enqueued);
    assert s.log.consumed + [] == s.log.consumed;
  }

  lemma SignalsSettled(c: Config, s: State)
    requires SignalBalance(c, s) && TrackerBalance(s) && ShutdownOrder(s) && s.persistDone
    ensures s.m.signalCount == s.m.dropsSignal + s.m.shadowOrders + s.m.vetoes && Flat(s.tracker)
  {
  }

  lemma NextPoll(sched: nat -> Action, n: nat, t: Task) returns (k: nat)
    requires Fair(sched) && t != TimerTask
    ensures n <= k && TaskOf(sched(k)) == t
  {
    assert PolledFrom(sched, n, t);
    k :| n <= k && TaskOf(sched(k)) == t;
  }

  lemma SomeTaskReadyAt(c: Config, sched: nat -> Action, n: nat) returns (t: Task)
    requires !Terminal(StateAt(c, sched, n))
    ensures Ready(StateAt(c, sched, n), t) && t != TimerTask
  {
    RunKeeps(c, Prefix(sched, n));
    t := SomeTaskReady(c, StateAt(c, sched, n));
  }

  lemma ScheduledLater(c: Config, sched: nat -> Action, n: nat, k: nat)
    requires n <= k && Ready(StateAt(c, sched, n), TaskOf(sched(k)))
    ensures StateAt(c, sched, k + 1).halted || Measure(c, StateAt(c, sched, k + 1)) < Measure(c, StateAt(c, sched, n))
  {
    RunIsTrace(c, sched);
    PolledLater(c, (i: nat) => StateAt(c, sched, i), (i: nat) => TaskOf(sched(i)), n, k);
  }

  lemma FairRunAdvances(c: Config, sched: nat -> Action, n: nat) returns (m: nat)
    requires Fair(sched) && !Terminal(StateAt(c, sched, n))
    ensures n < m
    ensures StateAt(c, sched, m).halted || Measure(c, StateAt(c, sched, m)) < Measure(c, StateAt(c, sched, n))
  {
    var t := SomeTaskReadyAt(c, sched, n);
    var k := NextPoll(sched, n, t);
    ScheduledLater(c, sched, n, k);
    m := k + 1;
  }

  /** Every fair run of a replay ends: in exit 13, or with all four tasks finished, every channel
      and the batch buffer empty, and every enqueued event attempted. */
  lemma {:induction false} EveryFairRunEnds(c: Config, sched: nat -> Action, n: nat) returns (k: nat)
    requires Fair(sched)
    ensures n <= k && (StateAt(c, sched, k).halted || Drained(c, StateAt(c, sched, k)))
    decreases !StateAt(c, sched, n).halted, Measure(c, StateAt(c, sched, n))
  {
    var s := StateAt(c, sched, n);
    if Terminal(s) {
      k := n;
      if !s.halted {
        RunKeeps(c, Prefix(sched, n));
        DoneIsDrained(c, s);
      }
    } else {
      MeasureNonnegative(c, sched, n);
      var m := FairRunAdvances(c, sched, n);
      k := EveryFairRunEnds(c, sched, m);
    }
  }

  /** Once ingest has ended, a fair run always drains. */
  lemma ShutdownDrains(c: Config, sched: nat -> Action, n: nat) returns (k: nat)
    requires Fair(sched) && StateAt(c, sched, n).ingest.IngestDone?
    ensures n <= k && Drained(c, StateAt(c, sched, k))
  {
    k := EveryFairRunEnds(c, sched, n);
    RunIsTrace(c, sched);
    WorkOnlyShrinks(c, (i: nat) => StateAt(c, sched, i), (i: nat) => TaskOf(sched(i)), n, k);
    NoExit13AfterIngest(c, Prefix(sched, k));
  }
}
