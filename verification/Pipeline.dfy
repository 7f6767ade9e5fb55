/** The four engine tasks and the three bounded channels between them, for a file replay
    (engine-rust/src/main.rs, with the task bodies of ingest, strategy, execution and persist).

    One action is one poll of one task, up to and including its next channel operation, so every
    interleaving of channel operations the runtime can produce is a sequence of actions. Polling
    a task that has nothing to do changes nothing. A process exit with code 13 is the absorbing
    state `halted`. */
module Pipeline {
  import opened Wrappers
  import opened Sequences
  import opened Types
  import opened Ingest
  import opened Strategy
  import opened Execution
  import opened Persist

  type Pos = n: nat | n >= 1 witness 1

  datatype Config = Config(
    lines: seq<Line>, sampleEvery: Pos, caps: RiskCaps, tickCap: nat, signalCap: nat, persistCap: nat)

  // Where each task stands between two channel operations.
  datatype IngestPc = Reading | OfferingTick(tick: Tick) | IngestDone(endOfFile: bool)
  datatype StrategyPc = AwaitingTick | OfferingSignal(signal: Signal) | SavingSignal(signal: Signal) | StrategyDone
  datatype ExecutionPc = AwaitingSignal | SavingOrder(signal: Signal) | SavingTrade(signal: Signal) | ExecutionDone

  datatype Channels = Channels(ticks: seq<Tick>, signals: seq<Signal>, events: seq<PersistEvent>)

  datatype Metrics = Metrics(
    tickCount: nat, ingestReceived: nat, ingestProcessed: nat,
    dropsTick: nat, dropsSignal: nat, dropsPersist: nat,
    signalCount: nat, shadowOrders: nat, trades: nat, vetoes: nat)

  /** What has happened so far: ticks sent and consumed, signals generated, delivered to the
      signal channel, dropped and handled by execution, events enqueued and received. */
  datatype Log = Log(
    sent: seq<Tick>, consumed: seq<Tick>,
    generated: seq<Signal>, delivered: seq<Signal>, dropped: seq<Signal>, handled: seq<Signal>,
    enqueued: seq<PersistEvent>, received: seq<PersistEvent>)

  datatype State = State(
    halted: bool,
    ingest: IngestPc, cursor: nat, sequence: nat,
    strategy: StrategyPc, sma: SmaState,
    execution: ExecutionPc, tracker: Exposure,
    persist: PersistState, persistDone: bool,
    ch: Channels, m: Metrics, log: Log)

  /** `stop` says that ingest finds a shutdown request or a read error at the head of its loop;
      `outcomes` are the insert results of the flush the poll may run. */
  datatype Action =
    | PollIngest(stop: bool)
    | PollStrategy
    | PollExecution
    | PollPersist(outcomes: seq<bool>)
    | FlushTimer(outcomes: seq<bool>)

  function Init(): State {
    State(false, Reading, 0, 0, AwaitingTick, SmaState([], None), AwaitingSignal, NO_EXPOSURE,
          NOTHING_PERSISTED, false, Channels([], [], []), Metrics(0, 0, 0, 0, 0, 0, 0, 0, 0, 0),
          Log([], [], [], [], [], [], [], []))
  }

  /** A `try_send` to the persist channel whose failure is ignored. */
  function Offer(c: Config, s: State, e: PersistEvent): State {
    if |s.ch.events| < c.persistCap then
      s.(ch := s.ch.(events := s.ch.events + [e]), log := s.log.(enqueued := s.log.enqueued + [e]))
    else s
  }

  /** The replay loop and `send_tick`, which exits the process when either channel is full. */
  function IngestStep(c: Config, s: State, stop: bool): State {
    match s.ingest
    case Reading =>
      if stop then s.(ingest := IngestDone(false))
      else if s.cursor >= |c.lines| then s.(ingest := IngestDone(true))
      else
        (match c.lines[s.cursor]
         case Blank => s.(cursor := s.cursor + 1)
         case Malformed => Read(s)
         case Parsed(tick) =>
           if !Due(s.sequence + 1, c.sampleEvery) then Read(s).(sequence := s.sequence + 1)
           else if |s.ch.ticks| >= c.tickCap then
             s.(halted := true, m := s.m.(dropsTick := s.m.dropsTick + 1))
           else
             Read(s).(sequence := s.sequence + 1,
                      ingest := OfferingTick(tick),
                      ch := s.ch.(ticks := s.ch.ticks + [tick]),
                      log := s.log.(sent := s.log.sent + [tick])))
    case OfferingTick(tick) =>
      if |s.ch.events| >= c.persistCap then
        s.(halted := true, m := s.m.(dropsPersist := s.m.dropsPersist + 1))
      else
        Offer(c, s, TickEvent(tick)).(
          ingest := Reading,
          m := s.m.(tickCount := s.m.tickCount + 1, ingestProcessed := s.m.ingestProcessed + 1))
    case IngestDone(_) => s
  }

  function Read(s: State): State {
    s.(cursor := s.cursor + 1, m := s.m.(ingestReceived := s.m.ingestReceived + 1))
  }

  /** The strategy takes the first tick, with the new window and the side it gave. */
  function Consume(s: State, sma: SmaState, side: Option<Side>): State
    requires s.ch.ticks != []
  {
    var tick := s.ch.ticks[0];
    var s' := s.(sma := sma,
                 ch := s.ch.(ticks := s.ch.ticks[1..]),
                 log := s.log.(consumed := s.log.consumed + [tick]));
    match side
    case None => s'
    case Some(sd) =>
      var signal := MakeSignal(tick, sd);
      s'.(strategy := OfferingSignal(signal),
          m := s.m.(signalCount := s.m.signalCount + 1),
          log := s'.log.(generated := s.log.generated + [signal]))
  }

  function StrategyStep(c: Config, s: State): State {
    match s.strategy
    case AwaitingTick =>
      if s.ch.ticks != [] then
        var (sma, side) := OnPrice(s.sma, s.ch.ticks[0].price);
        Consume(s, sma, side)
      else if s.ingest.IngestDone? then s.(strategy := StrategyDone)
      else s
    case OfferingSignal(signal) =>
      if |s.ch.signals| < c.signalCap then
        s.(strategy := SavingSignal(signal),
           ch := s.ch.(signals := s.ch.signals + [signal]),
           log := s.log.(delivered := s.log.delivered + [signal]))
      else
        s.(strategy := SavingSignal(signal),
           m := s.m.(dropsSignal := s.m.dropsSignal + 1),
           log := s.log.(dropped := s.log.dropped + [signal]))
    case SavingSignal(signal) => Offer(c, s, SignalEvent(signal)).(strategy := AwaitingTick)
    case StrategyDone => s
  }

  function ExecutionStep(c: Config, s: State): State {
    match s.execution
    case AwaitingSignal =>
      if s.ch.signals != [] then
        var signal := s.ch.signals[0];
        var s' := s.(ch := s.ch.(signals := s.ch.signals[1..]),
                     log := s.log.(handled := s.log.handled + [signal]));
        (match CheckAndUpdate(s.tracker, signal.symbol, Notional(signal), c.caps)
         case None => s'.(m := s.m.(vetoes := s.m.vetoes + 1))
         case Some(tracker) =>
           s'.(execution := SavingOrder(signal), tracker := tracker,
               m := s.m.(shadowOrders := s.m.shadowOrders + 1, trades := s.m.trades + 1)))
      else if s.strategy.StrategyDone? then s.(execution := ExecutionDone)
      else s
    case SavingOrder(signal) =>
      Offer(c, s, OrderEvent(ShadowOrder(signal))).(execution := SavingTrade(signal))
    case SavingTrade(signal) =>
      Offer(c, s, TradeEvent(ShadowTrade(signal))).(
        execution := AwaitingSignal,
        tracker := Release(s.tracker, signal.symbol, Notional(signal)))
    case ExecutionDone => s
  }

  /** All senders of the persist channel are gone: each of the three other tasks holds one. */
  predicate SendersDone(s: State) {
    s.ingest.IngestDone? && s.strategy.StrategyDone? && s.execution.ExecutionDone?
  }

  function PersistStep(s: State, outcomes: seq<bool>): State {
    if s.persistDone then s
    else if s.ch.events != [] then
      var e := s.ch.events[0];
      s.(persist := Receive(s.persist, e, outcomes),
         ch := s.ch.(events := s.ch.events[1..]),
         log := s.log.(received := s.log.received + [e]))
    else if SendersDone(s) then s.(persist := Flush(s.persist, outcomes), persistDone := true)
    else s
  }

  function TimerStep(s: State, outcomes: seq<bool>): State {
    if s.persistDone then s else s.(persist := Flush(s.persist, outcomes))
  }

  function Next(c: Config, s: State, a: Action): State {
    if s.halted then s
    else
      match a
      case PollIngest(stop) => IngestStep(c, s, stop)
      case PollStrategy => StrategyStep(c, s)
      case PollExecution => ExecutionStep(c, s)
      case PollPersist(outcomes) => PersistStep(s, outcomes)
      case FlushTimer(outcomes) => TimerStep(s, outcomes)
  }

  /** The state after a schedule. */
  function Run(c: Config, schedule: seq<Action>): State {
    if schedule == [] then Init()
    else Next(c, Run(c, schedule[..|schedule| - 1]), schedule[|schedule| - 1])
  }

  lemma RunPush(c: Config, schedule: seq<Action>, a: Action)
    ensures Run(c, schedule + [a]) == Next(c, Run(c, schedule), a)
  {
    assert (schedule + [a])[..|schedule|] == schedule;
  }

  // ----- what every interleaving keeps -----

  /** What has been read of the file, and what was sent of it. */
  ghost predicate Sampling(c: Config, s: State) {
    && s.cursor <= |c.lines|
    && s.sequence == |ParsedTicks(c.lines[..s.cursor])|
    && s.m.ingestReceived == NonBlank(c.lines[..s.cursor])
    && s.log.sent == Sampled(c.lines[..s.cursor], c.sampleEvery)
    && (s.ingest == IngestDone(true) ==> s.cursor == |c.lines|)
  }

  /** Ticks are neither lost, duplicated nor reordered, and the strategy is a function of them. */
  ghost predicate Flow(s: State) {
    && s.log.consumed + s.ch.ticks == s.log.sent
    && s.sma == SmaAfter(Prices(s.log.consumed))
    && s.log.generated == Signals(s.log.consumed)
  }

  /** Every generated signal is counted once: dropped, queued, executed or vetoed. */
  ghost predicate SignalBalance(c: Config, s: State) {
    var settled := Settled(s);
    && s.m.signalCount == |s.log.generated|
    && (s.strategy.OfferingSignal? ==> s.log.generated == settled + [s.strategy.signal])
    && |settled| == |s.log.delivered| + s.m.dropsSignal
    && Subsequence(s.log.delivered, settled)
    && s.log.handled + s.ch.signals == s.log.delivered
    && s.m.trades == s.m.shadowOrders == |Fitting(s.log.handled, c.caps)|
    && s.m.shadowOrders + s.m.vetoes == |s.log.handled|
  }

  /** The generated signals that have been offered to the signal channel. */
  function Settled(s: State): seq<Signal> {
    if s.strategy.OfferingSignal? && s.log.generated != [] then s.log.generated[..|s.log.generated| - 1]
    else s.log.generated
  }

  /** The exposure tracker reads zero whenever execution waits for a signal, and would after
      releasing the one it holds. */
  ghost predicate TrackerBalance(s: State) {
    match s.execution
    case SavingOrder(signal) => Flat(Release(s.tracker, signal.symbol, Notional(signal)))
    case SavingTrade(signal) => Flat(Release(s.tracker, signal.symbol, Notional(signal)))
    case _ => Flat(s.tracker)
  }

  function TicksOf(events: seq<PersistEvent>): seq<Tick> {
    if events == [] then []
    else
      var last := events[|events| - 1];
      TicksOf(events[..|events| - 1]) + (if last.TickEvent? then [last.tick] else [])
  }

  /** Every sent tick is also enqueued for persistence, in order; events are received in order
      and end up attempted or buffered. */
  ghost predicate PersistBalance(s: State) {
    && s.log.received + s.ch.events == s.log.enqueued
    && Balanced(s.persist, s.log.received)
    && TicksOf(s.log.enqueued) + (if s.ingest.OfferingTick? then [s.ingest.tick] else []) == s.log.sent
    && s.m.tickCount == s.m.ingestProcessed == |TicksOf(s.log.enqueued)|
  }

  /** Channels never exceed their capacity, and the process exits 13 exactly when a tick cannot
      be handed on. */
  ghost predicate Backpressure(c: Config, s: State) {
    && |s.ch.ticks| <= c.tickCap && |s.ch.signals| <= c.signalCap && |s.ch.events| <= c.persistCap
    && s.m.dropsTick + s.m.dropsPersist == (if s.halted then 1 else 0)
    && (s.m.dropsTick == 1 ==> |s.ch.ticks| == c.tickCap && s.ingest == Reading)
    && (s.m.dropsPersist == 1 ==> |s.ch.events| == c.persistCap && s.ingest.OfferingTick?)
  }

  /** Tasks end in pipeline order, each leaving its input empty. */
  ghost predicate ShutdownOrder(s: State) {
    && (s.strategy.StrategyDone? ==> s.ingest.IngestDone? && s.ch.ticks == [])
    && (s.execution.ExecutionDone? ==> s.strategy.StrategyDone? && s.ch.signals == [])
    && (s.persistDone ==> SendersDone(s) && s.ch.events == [] && s.persist.buffer == [])
  }

  ghost predicate Inv(c: Config, s: State) {
    && Sampling(c, s)
    && Flow(s)
    && SignalBalance(c, s)
    && TrackerBalance(s)
    && PersistBalance(s)
    && Backpressure(c, s)
    && ShutdownOrder(s)
  }

  lemma TicksOfPush(events: seq<PersistEvent>, e: PersistEvent)
    ensures TicksOf(events + [e]) == TicksOf(events) + (if e.TickEvent? then [e.tick] else [])
  {
    assert (events + [e])[..|events|] == events;
  }

  lemma FittingPush(signals: seq<Signal>, signal: Signal, caps: RiskCaps)
    ensures Fitting(signals + [signal], caps)
            == Fitting(signals, caps) + (if FitsAlone(signal, caps) then [signal] else [])
  {
    assert (signals + [signal])[..|signals|] == signals;
  }

  // Which parts of the state a step leaves alone.

  ghost predicate SameSampling(s: State, t: State) {
    && t.ingest == s.ingest && t.cursor == s.cursor && t.sequence == s.sequence
    && t.m.ingestReceived == s.m.ingestReceived && t.log.sent == s.log.sent
  }

  ghost predicate SameFlow(s: State, t: State) {
    && t.sma == s.sma && t.log.sent == s.log.sent && t.log.consumed == s.log.consumed
    && t.ch.ticks == s.ch.ticks && t.log.generated == s.log.generated
  }

  ghost predicate SameSignals(s: State, t: State) {
    && t.strategy == s.strategy && t.log.generated == s.log.generated
    && t.log.delivered == s.log.delivered && t.log.dropped == s.log.dropped
    && t.log.handled == s.log.handled && t.ch.signals == s.ch.signals
    && t.m.signalCount == s.m.signalCount && t.m.dropsSignal == s.m.dropsSignal
    && t.m.shadowOrders == s.m.shadowOrders && t.m.trades == s.m.trades && t.m.vetoes == s.m.vetoes
  }

  ghost predicate SameExecution(s: State, t: State) {
    t.execution == s.execution && t.tracker == s.tracker
  }

  ghost predicate SamePersist(s: State, t: State) {
    && t.ingest == s.ingest && t.log.sent == s.log.sent
    && t.log.received == s.log.received && t.ch.events == s.ch.events && t.log.enqueued == s.log.enqueued
    && t.persist == s.persist
    && t.m.tickCount == s.m.tickCount && t.m.ingestProcessed == s.m.ingestProcessed
  }

  lemma Framed(c: Config, s: State, t: State)
    ensures SameSampling(s, t) && Sampling(c, s) ==> Sampling(c, t)
    ensures SameFlow(s, t) && Flow(s) ==> Flow(t)
    ensures SameSignals(s, t) && SignalBalance(c, s) ==> SignalBalance(c, t)
    ensures SameExecution(s, t) && TrackerBalance(s) ==> TrackerBalance(t)
    ensures SamePersist(s, t) && PersistBalance(s) ==> PersistBalance(t)
  {
  }

  lemma IngestFrame(c: Config, s: State, stop: bool)
    ensures var t := IngestStep(c, s, stop); SameSignals(s, t) && SameExecution(s, t)
  {
  }

  /** Reading a line that parses: it is sent when due, and the process halts when that is not
      possible. */
  lemma ReadParsedState(c: Config, s: State, tick: Tick)
    requires s.ingest == Reading && s.cursor < |c.lines| && c.lines[s.cursor] == Parsed(tick)
    ensures var t, due := IngestStep(c, s, false), Due(s.sequence + 1, c.sampleEvery);
            || SameSampling(s, t)
            || (&& t.cursor == s.cursor + 1 && t.sequence == s.sequence + 1 && t.ingest != IngestDone(true)
                && t.m.ingestReceived == s.m.ingestReceived + 1
                && t.log.sent == s.log.sent + (if due then [tick] else []))
  {
    assert s.log.sent + [] == s.log.sent;
  }

  lemma ReadParsed(c: Config, s: State, tick: Tick)
    requires Sampling(c, s) && s.ingest == Reading && s.cursor < |c.lines| && c.lines[s.cursor] == Parsed(tick)
    ensures Sampling(c, IngestStep(c, s, false))
  {
    var past := c.lines[..s.cursor];
    assert c.lines[..s.cursor + 1] == past + [Parsed(tick)];
    LinesPush(past, Parsed(tick));
    SampledPush(past, Parsed(tick), c.sampleEvery);
    ReadParsedState(c, s, tick);
  }

  lemma ReadOther(c: Config, s: State, line: Line)
    requires Sampling(c, s) && s.ingest == Reading && s.cursor < |c.lines| && c.lines[s.cursor] == line && !line.Parsed?
    ensures Sampling(c, IngestStep(c, s, false))
  {
    var past := c.lines[..s.cursor];
    assert c.lines[..s.cursor + 1] == past + [line];
    LinesPush(past, line);
    SampledPush(past, line, c.sampleEvery);
  }

  lemma IngestSampling(c: Config, s: State, stop: bool)
    requires Sampling(c, s)
    ensures Sampling(c, IngestStep(c, s, stop))
  {
    if s.ingest == Reading && !stop && s.cursor < |c.lines| {
      match c.lines[s.cursor] {
        case Parsed(tick) => ReadParsed(c, s, tick);
        case line => ReadOther(c, s, line);
      }
    }
  }

  lemma IngestFlow(c: Config, s: State, stop: bool)
    requires Flow(s)
    ensures Flow(IngestStep(c, s, stop))
  {
    var t := IngestStep(c, s, stop);
    assert t.sma == s.sma && t.log.consumed == s.log.consumed && t.log.generated == s.log.generated;
  }

  lemma OfferTickPersist(c: Config, s: State, stop: bool)
    requires PersistBalance(s) && s.ingest.OfferingTick?
    ensures PersistBalance(IngestStep(c, s, stop))
  {
    TicksOfPush(s.log.enqueued, TickEvent(s.ingest.tick));
  }

  lemma ReadPersist(c: Config, s: State, stop: bool)
    requires PersistBalance(s) && s.ingest == Reading
    ensures PersistBalance(IngestStep(c, s, stop))
  {
    var t, ticks := IngestStep(c, s, stop), TicksOf(s.log.enqueued);
    assert ticks + [] == ticks;
    assert t.log.enqueued == s.log.enqueued && t.log.received == s.log.received && t.persist == s.persist;
    assert t.ingest.OfferingTick? ==> t.log.sent == s.log.sent + [t.ingest.tick];
  }

  lemma IngestPersist(c: Config, s: State, stop: bool)
    requires PersistBalance(s)
    ensures PersistBalance(IngestStep(c, s, stop))
  {
    match s.ingest {
      case Reading => ReadPersist(c, s, stop);
      case OfferingTick(_) => OfferTickPersist(c, s, stop);
      case IngestDone(_) =>
    }
  }

  /** The next poll of ingest hands a due tick to a full tick channel, or a sent one to a full
      persist channel. */
  predicate TickMeetsFullChannel(c: Config, s: State, stop: bool) {
    match s.ingest
    case Reading =>
      && !stop && s.cursor < |c.lines| && c.lines[s.cursor].Parsed?
      && Due(s.sequence + 1, c.sampleEvery) && |s.ch.ticks| == c.tickCap
    case OfferingTick(_) => |s.ch.events| == c.persistCap
    case IngestDone(_) => false
  }

  /** Ingest halts the process exactly then, and leaves the channels as they were. */
  lemma IngestBounds(c: Config, s: State, stop: bool)
    requires Backpressure(c, s) && ShutdownOrder(s) && !s.halted
    ensures Backpressure(c, IngestStep(c, s, stop)) && ShutdownOrder(IngestStep(c, s, stop))
    ensures IngestStep(c, s, stop).halted <==> TickMeetsFullChannel(c, s, stop)
    ensures IngestStep(c, s, stop).halted ==> IngestStep(c, s, stop).ch == s.ch
  {
  }

  lemma IngestKeeps(c: Config, s: State, stop: bool)
    requires Inv(c, s) && !s.halted
    ensures Inv(c, IngestStep(c, s, stop))
  {
    var t := IngestStep(c, s, stop);
    IngestFrame(c, s, stop);
    Framed(c, s, t);
    IngestSampling(c, s, stop);
    IngestFlow(c, s, stop);
    IngestPersist(c, s, stop);
    IngestBounds(c, s, stop);
  }

  lemma OfferKeeps(c: Config, s: State, e: PersistEvent)
    requires PersistBalance(s) && !e.TickEvent?
    ensures PersistBalance(Offer(c, s, e))
    ensures SameSampling(s, Offer(c, s, e)) && SameFlow(s, Offer(c, s, e))
    ensures SameSignals(s, Offer(c, s, e)) && SameExecution(s, Offer(c, s, e))
  {
    TicksOfPush(s.log.enqueued, e);
  }

  lemma ConsumeFlow(s: State, sma: SmaState, side: Option<Side>)
    requires s.log.consumed + s.ch.ticks == s.log.sent && s.strategy == AwaitingTick && s.ch.ticks != []
    requires var tick := s.ch.ticks[0];
             && sma == SmaAfter(Prices(s.log.consumed + [tick]))
             && Signals(s.log.consumed + [tick])
                == match side
                   case None => s.log.generated
                   case Some(sd) => s.log.generated + [MakeSignal(tick, sd)]
    ensures Flow(Consume(s, sma, side))
  {
    assert (s.log.consumed + [s.ch.ticks[0]]) + s.ch.ticks[1..] == s.log.sent;
  }

  lemma StrategyConsumes(c: Config, s: State)
    requires Flow(s) && s.strategy == AwaitingTick && s.ch.ticks != []
    ensures Flow(StrategyStep(c, s))
  {
    var tick := s.ch.ticks[0];
    var (sma, side) := OnPrice(s.sma, tick.price);
    OnPriceRefines(Prices(s.log.consumed), tick.price);
    SignalsPush(s.log.consumed, tick);
    ConsumeFlow(s, sma, side);
  }

  lemma ConsumeKeeps(c: Config, s: State, sma: SmaState, side: Option<Side>)
    requires SignalBalance(c, s) && s.strategy == AwaitingTick && s.ch.ticks != []
    ensures SignalBalance(c, Consume(s, sma, side))
    ensures SameSampling(s, Consume(s, sma, side)) && SamePersist(s, Consume(s, sma, side))
    ensures SameExecution(s, Consume(s, sma, side))
  {
    if side.Some? {
      var signal := MakeSignal(s.ch.ticks[0], side.value);
      assert (s.log.generated + [signal])[..|s.log.generated|] == s.log.generated;
    }
  }

  /** With room the signal joins the end of the queue; without, the queue stays as it is and the
      offered signal is the one that is lost. */
  ghost predicate OfferedOrLost(c: Config, s: State, t: State, signal: Signal) {
    if |s.ch.signals| < c.signalCap then
      && t.ch.signals == s.ch.signals + [signal] && t.log.delivered == s.log.delivered + [signal]
      && t.log.dropped == s.log.dropped
    else
      && t.ch.signals == s.ch.signals && t.log.delivered == s.log.delivered
      && t.log.dropped == s.log.dropped + [signal]
  }

  lemma StrategyOffers(c: Config, s: State)
    requires SignalBalance(c, s) && s.strategy.OfferingSignal?
    ensures SignalBalance(c, StrategyStep(c, s)) && OfferedOrLost(c, s, StrategyStep(c, s), s.strategy.signal)
    ensures SamePersist(s, StrategyStep(c, s)) && SameExecution(s, StrategyStep(c, s))
    ensures SameSampling(s, StrategyStep(c, s)) && SameFlow(s, StrategyStep(c, s))
  {
    if |s.ch.signals| < c.signalCap {
      SubsequenceTake(s.log.delivered, Settled(s), s.strategy.signal);
    } else {
      SubsequenceSkip(s.log.delivered, Settled(s), s.strategy.signal);
    }
  }

  lemma StrategyBounds(c: Config, s: State)
    requires Backpressure(c, s) && ShutdownOrder(s) && !s.halted
    ensures Backpressure(c, StrategyStep(c, s)) && ShutdownOrder(StrategyStep(c, s))
  {
  }

  lemma StrategyKeeps(c: Config, s: State)
    requires Inv(c, s) && !s.halted
    ensures Inv(c, StrategyStep(c, s))
  {
    StrategyBounds(c, s);
    Framed(c, s, StrategyStep(c, s));
    match s.strategy {
      case AwaitingTick =>
        if s.ch.ticks != [] {
          StrategyConsumes(c, s);
          var (sma, side) := OnPrice(s.sma, s.ch.ticks[0].price);
          ConsumeKeeps(c, s, sma, side);
        }
      case OfferingSignal(signal) =>
        StrategyOffers(c, s);
      case SavingSignal(signal) =>
        OfferKeeps(c, s, SignalEvent(signal));
      case StrategyDone =>
    }
  }

  lemma ExecutionReceives(c: Config, s: State)
    requires SignalBalance(c, s) && TrackerBalance(s) && s.execution == AwaitingSignal && s.ch.signals != []
    ensures SignalBalance(c, ExecutionStep(c, s)) && TrackerBalance(ExecutionStep(c, s))
    ensures SameSampling(s, ExecutionStep(c, s)) && SameFlow(s, ExecutionStep(c, s))
    ensures SamePersist(s, ExecutionStep(c, s))
  {
    var signal := s.ch.signals[0];
    FlatRoundTrip(s.tracker, signal, c.caps);
    FittingPush(s.log.handled, signal, c.caps);
    assert (s.log.handled + [signal]) + s.ch.signals[1..] == s.log.delivered;
  }

  lemma ExecutionBounds(c: Config, s: State)
    requires Backpressure(c, s) && ShutdownOrder(s) && !s.halted
    ensures Backpressure(c, ExecutionStep(c, s)) && ShutdownOrder(ExecutionStep(c, s))
  {
  }

  lemma ExecutionKeeps(c: Config, s: State)
    requires Inv(c, s) && !s.halted
    ensures Inv(c, ExecutionStep(c, s))
  {
    ExecutionBounds(c, s);
    Framed(c, s, ExecutionStep(c, s));
    match s.execution {
      case AwaitingSignal =>
        if s.ch.signals != [] {
          ExecutionReceives(c, s);
        }
      case SavingOrder(signal) => OfferKeeps(c, s, OrderEvent(ShadowOrder(signal)));
      case SavingTrade(signal) => OfferKeeps(c, s, TradeEvent(ShadowTrade(signal)));
      case ExecutionDone =>
    }
  }

  lemma PersistReceives(c: Config, s: State, outcomes: seq<bool>)
    requires PersistBalance(s)
    ensures PersistBalance(PersistStep(s, outcomes)) && PersistBalance(TimerStep(s, outcomes))
  {
    FlushBalanced(s.persist, s.log.received, outcomes);
    if s.ch.events != [] {
      ReceiveBalanced(s.persist, s.log.received, s.ch.events[0], outcomes);
      assert (s.log.received + [s.ch.events[0]]) + s.ch.events[1..] == s.log.enqueued;
    }
  }

  lemma PersistBounds(c: Config, s: State, outcomes: seq<bool>)
    requires Backpressure(c, s) && ShutdownOrder(s) && !s.halted
    ensures Backpressure(c, PersistStep(s, outcomes)) && ShutdownOrder(PersistStep(s, outcomes))
    ensures Backpressure(c, TimerStep(s, outcomes)) && ShutdownOrder(TimerStep(s, outcomes))
  {
  }

  lemma PersistKeeps(c: Config, s: State, outcomes: seq<bool>)
    requires Inv(c, s) && !s.halted
    ensures Inv(c, PersistStep(s, outcomes))
  {
    PersistBounds(c, s, outcomes);
    Framed(c, s, PersistStep(s, outcomes));
    PersistReceives(c, s, outcomes);
  }

  lemma TimerKeeps(c: Config, s: State, outcomes: seq<bool>)
    requires Inv(c, s) && !s.halted
    ensures Inv(c, TimerStep(s, outcomes))
  {
    PersistBounds(c, s, outcomes);
    Framed(c, s, TimerStep(s, outcomes));
    PersistReceives(c, s, outcomes);
  }

  /** A poll of a task is a step of that task, unless the process has halted. */
  lemma PollIsStep(c: Config, s: State, stop: bool, outcomes: seq<bool>)
    ensures Next(c, s, PollIngest(stop)) == if s.halted then s else IngestStep(c, s, stop)
    ensures Next(c, s, PollStrategy) == if s.halted then s else StrategyStep(c, s)
    ensures Next(c, s, PollExecution) == if s.halted then s else ExecutionStep(c, s)
    ensures Next(c, s, PollPersist(outcomes)) == if s.halted then s else PersistStep(s, outcomes)
    ensures Next(c, s, FlushTimer(outcomes)) == if s.halted then s else TimerStep(s, outcomes)
  {
  }

  lemma IngestNext(c: Config, s: State, stop: bool)
    requires Inv(c, s)
    ensures Inv(c, Next(c, s, PollIngest(stop)))
  {
    PollIsStep(c, s, stop, []);
    if !s.halted {
      IngestKeeps(c, s, stop);
    }
  }

  lemma StrategyNext(c: Config, s: State)
    requires Inv(c, s)
    ensures Inv(c, Next(c, s, PollStrategy))
  {
    PollIsStep(c, s, false, []);
    if !s.halted {
      StrategyKeeps(c, s);
    }
  }

  lemma ExecutionNext(c: Config, s: State)
    requires Inv(c, s)
    ensures Inv(c, Next(c, s, PollExecution))
  {
    PollIsStep(c, s, false, []);
    if !s.halted {
      ExecutionKeeps(c, s);
    }
  }

  lemma PersistNext(c: Config, s: State, outcomes: seq<bool>)
    requires Inv(c, s)
    ensures Inv(c, Next(c, s, PollPersist(outcomes)))
  {
    PollIsStep(c, s, false, outcomes);
    if !s.halted {
      PersistKeeps(c, s, outcomes);
    }
  }

  lemma TimerNext(c: Config, s: State, outcomes: seq<bool>)
    requires Inv(c, s)
    ensures Inv(c, Next(c, s, FlushTimer(outcomes)))
  {
    PollIsStep(c, s, false, outcomes);
    if !s.halted {
      TimerKeeps(c, s, outcomes);
    }
  }

  lemma {:induction false} NextKeeps(c: Config, s: State, a: Action)
    requires Inv(c, s)
    ensures Inv(c, Next(c, s, a))
  {
    match a {
      case PollIngest(stop) => IngestNext(c, s, stop);
      case PollStrategy => StrategyNext(c, s);
      case PollExecution => ExecutionNext(c, s);
      case PollPersist(outcomes) => PersistNext(c, s, outcomes);
      case FlushTimer(outcomes) => TimerNext(c, s, outcomes);
    }
  }

  lemma InitFlow(c: Config)
    ensures Sampling(c, Init()) && Flow(Init())
  {
    assert c.lines[..0] == [];
    assert Prices([]) == [];
  }

  lemma NothingSentYet(s: State)
    requires s.log.sent == [] && s.log.received == [] && s.log.enqueued == [] && s.ch.events == []
    requires Balanced(s.persist, []) && s.ingest == Reading
    requires s.m.tickCount == s.m.ingestProcessed == 0
    ensures PersistBalance(s)
  {
  }

  lemma InitPersist(s: State)
    requires s == Init()
    ensures PersistBalance(s)
  {
    NothingBalanced();
    NothingSentYet(s);
  }

  lemma InitRest(c: Config, s: State)
    requires s == Init()
    ensures SignalBalance(c, s) && TrackerBalance(s) && Backpressure(c, s) && ShutdownOrder(s)
  {
  }

  lemma Assemble(c: Config, s: State)
    requires Sampling(c, s) && Flow(s) && SignalBalance(c, s) && TrackerBalance(s)
    requires PersistBalance(s) && Backpressure(c, s) && ShutdownOrder(s)
    ensures Inv(c, s)
  {
  }

  lemma InitInv(c: Config)
    ensures Inv(c, Init())
  {
    InitFlow(c);
    InitPersist(Init());
    InitRest(c, Init());
    Assemble(c, Init());
  }

  /** Every interleaving, however long, and whether or not it ended in exit 13. */
  lemma {:induction false} RunKeeps(c: Config, schedule: seq<Action>)
    ensures Inv(c, Run(c, schedule))
  {
    if schedule == [] {
      InitInv(c);
    } else {
      RunKeeps(c, schedule[..|schedule| - 1]);
      NextKeeps(c, Run(c, schedule[..|schedule| - 1]), schedule[|schedule| - 1]);
    }
  }
}
