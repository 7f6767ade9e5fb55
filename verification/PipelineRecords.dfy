/** What reaches the database: of every run only what the run decided, in order; and of a run with
    enough room, all of it. */
module PipelineRecords {
  import opened Wrappers
  import opened Sequences
  import opened Types
  import opened Ingest
  import opened Strategy
  import opened Execution
  import opened Persist
  import opened Pipeline
  import opened PipelineLaws

  function SignalsIn(events: seq<PersistEvent>): seq<Signal> {
    if events == [] then []
    else
      var last := events[|events| - 1];
      SignalsIn(events[..|events| - 1]) + (if last.SignalEvent? then [last.signal] else [])
  }

  /** The order and trade events. */
  function RecordsIn(events: seq<PersistEvent>): seq<PersistEvent> {
    if events == [] then []
    else
      var last := events[|events| - 1];
      RecordsIn(events[..|events| - 1]) + (if last.OrderEvent? || last.TradeEvent? then [last] else [])
  }

  lemma EventsPush(events: seq<PersistEvent>, e: PersistEvent)
    ensures SignalsIn(events + [e]) == SignalsIn(events) + (if e.SignalEvent? then [e.signal] else [])
    ensures RecordsIn(events + [e]) == RecordsIn(events) + (if e.OrderEvent? || e.TradeEvent? then [e] else [])
  {
    assert (events + [e])[..|events|] == events;
  }

  // ----- following a sequence, exactly or with gaps -----

  /** `a` is all of `b`, or what is left of it after some elements were dropped. */
  ghost predicate Follows<T>(a: seq<T>, b: seq<T>, exact: bool) {
    if exact then a == b else Subsequence(a, b)
  }

  lemma {:induction false} FollowsBoth<T>(a: seq<T>, b: seq<T>, more: seq<T>, exact: bool)
    requires Follows(a, b, exact)
    ensures Follows(a + more, b + more, exact)
    decreases |more|
  {
    if more == [] {
      assert a + more == a && b + more == b;
    } else {
      var n := |more| - 1;
      FollowsBoth(a, b, more[..n], exact);
      SubsequenceBoth(a + more[..n], b + more[..n], more[n], exact);
      assert a + more == a + more[..n] + [more[n]] && b + more == b + more[..n] + [more[n]];
    }
  }

  lemma SubsequenceBoth<T>(a: seq<T>, b: seq<T>, x: T, exact: bool)
    requires Follows(a, b, exact)
    ensures Follows(a + [x], b + [x], exact)
  {
    if !exact {
      SubsequenceTake(a, b, x);
    }
  }

  /** The only pending element was offered: it is saved now, or was dropped. */
  lemma LastOffered<T>(saved: seq<T>, saved': seq<T>, x: T, all: seq<T>, exact: bool)
    requires Follows(saved + [x], all, exact)
    requires saved' == saved + [x] || (!exact && saved' == saved)
    ensures Follows(saved' + [], all, exact)
  {
    assert saved' + [] == saved' && (saved + [x])[..|saved|] == saved;
    if !exact {
      SubsequenceDropLast(saved + [x], all);
    }
  }

  /** The first of two pending elements was offered. */
  lemma FirstOffered<T>(saved: seq<T>, saved': seq<T>, x: T, y: T, all: seq<T>, exact: bool)
    requires Follows(saved + [x, y], all, exact)
    requires saved' == saved + [x] || (!exact && saved' == saved)
    ensures Follows(saved' + [y], all, exact)
  {
    assert saved + [x, y] == saved + [x] + [y];
    if !exact {
      SubsequenceDropInner(saved, x, y, all);
    }
  }

  // ----- the invariant -----

  /** Generated, but not yet offered to persistence. */
  function PendingSignal(s: State): seq<Signal> {
    match s.strategy
    case OfferingSignal(signal) => [signal]
    case SavingSignal(signal) => [signal]
    case _ => []
  }

  /** Executed, but not yet offered to persistence. */
  function PendingRecords(s: State): seq<PersistEvent> {
    match s.execution
    case SavingOrder(signal) => [OrderEvent(ShadowOrder(signal)), TradeEvent(ShadowTrade(signal))]
    case SavingTrade(signal) => [TradeEvent(ShadowTrade(signal))]
    case _ => []
  }

  ghost predicate SignalsKept(s: State, exact: bool) {
    Follows(SignalsIn(s.log.enqueued) + PendingSignal(s), s.log.generated, exact)
  }

  ghost predicate RecordsKept(c: Config, s: State, exact: bool) {
    Follows(RecordsIn(s.log.enqueued) + PendingRecords(s), Records(Fitting(s.log.handled, c.caps)), exact)
  }

  /** A task that is about to save something finds room for it. */
  predicate RoomToSave(c: Config, s: State) {
    s.strategy.SavingSignal? || s.execution.SavingOrder? || s.execution.SavingTrade? ==> |s.ch.events| < c.persistCap
  }

  ghost predicate SameSaved(s: State, t: State) {
    && SignalsIn(t.log.enqueued) == SignalsIn(s.log.enqueued)
    && RecordsIn(t.log.enqueued) == RecordsIn(s.log.enqueued)
  }

  lemma IngestSaved(c: Config, s: State, stop: bool)
    ensures SameSaved(s, IngestStep(c, s, stop))
  {
    if s.ingest.OfferingTick? {
      EventsPush(s.log.enqueued, TickEvent(s.ingest.tick));
    }
  }

  lemma OfferSaved(c: Config, s: State, e: PersistEvent)
    ensures var t := Offer(c, s, e);
            if |s.ch.events| < c.persistCap then
              && SignalsIn(t.log.enqueued) == SignalsIn(s.log.enqueued) + (if e.SignalEvent? then [e.signal] else [])
              && RecordsIn(t.log.enqueued) == RecordsIn(s.log.enqueued) + (if e.OrderEvent? || e.TradeEvent? then [e] else [])
            else SameSaved(s, t)
  {
    EventsPush(s.log.enqueued, e);
  }

  lemma SavingState(c: Config, s: State)
    requires s.strategy.SavingSignal?
    ensures var t := StrategyStep(c, s);
            && t.log.enqueued == Offer(c, s, SignalEvent(s.strategy.signal)).log.enqueued
            && t.strategy == AwaitingTick && t.log.generated == s.log.generated
  {
  }

  lemma SavedSignal(c: Config, s: State, exact: bool)
    requires SignalsKept(s, exact) && (exact ==> RoomToSave(c, s)) && s.strategy.SavingSignal?
    ensures SignalsKept(StrategyStep(c, s), exact)
  {
    var t, signal := StrategyStep(c, s), s.strategy.signal;
    OfferSaved(c, s, SignalEvent(signal));
    SavingState(c, s);
    LastOffered(SignalsIn(s.log.enqueued), SignalsIn(t.log.enqueued), signal, s.log.generated, exact);
  }

  lemma StrategySignals(c: Config, s: State, exact: bool)
    requires SignalsKept(s, exact) && (exact ==> RoomToSave(c, s))
    ensures SignalsKept(StrategyStep(c, s), exact)
  {
    match s.strategy {
      case AwaitingTick =>
        if s.ch.ticks != [] {
          var (sma, side) := OnPrice(s.sma, s.ch.ticks[0].price);
          ConsumeSignals(s, sma, side, exact);
        }
      case SavingSignal(_) => SavedSignal(c, s, exact);
      case _ =>
    }
  }

  lemma ConsumeSignals(s: State, sma: SmaState, side: Option<Side>, exact: bool)
    requires SignalsKept(s, exact) && s.strategy == AwaitingTick && s.ch.ticks != []
    ensures SignalsKept(Consume(s, sma, side), exact)
  {
    var saved := SignalsIn(s.log.enqueued);
    assert saved + [] == saved;
    if side.Some? {
      SubsequenceBoth(saved, s.log.generated, MakeSignal(s.ch.ticks[0], side.value), exact);
    }
  }

  lemma RecordsPush(executed: seq<Signal>, signal: Signal)
    ensures Records(executed + [signal])
            == Records(executed) + [OrderEvent(ShadowOrder(signal)), TradeEvent(ShadowTrade(signal))]
  {
    assert (executed + [signal])[..|executed|] == executed;
  }

  /** What one more handled signal adds: nothing, or an order and a trade still to be saved. */
  lemma HandledRecords(saved: seq<PersistEvent>, handled: seq<Signal>, signal: Signal, caps: RiskCaps, exact: bool)
    requires Follows(saved, Records(Fitting(handled, caps)), exact)
    ensures var pending := if FitsAlone(signal, caps)
                           then [OrderEvent(ShadowOrder(signal)), TradeEvent(ShadowTrade(signal))] else [];
            Follows(saved + pending, Records(Fitting(handled + [signal], caps)), exact)
  {
    FittingPush(handled, signal, caps);
    var executed := Fitting(handled, caps);
    if FitsAlone(signal, caps) {
      RecordsPush(executed, signal);
      FollowsBoth(saved, Records(executed), [OrderEvent(ShadowOrder(signal)), TradeEvent(ShadowTrade(signal))], exact);
    } else {
      assert executed + [] == executed && saved + [] == saved;
    }
  }

  lemma ReceivedState(c: Config, s: State)
    requires TrackerBalance(s) && s.execution == AwaitingSignal && s.ch.signals != []
    ensures var t, signal := ExecutionStep(c, s), s.ch.signals[0];
            && t.log.enqueued == s.log.enqueued && t.log.handled == s.log.handled + [signal]
            && t.execution == (if FitsAlone(signal, c.caps) then SavingOrder(signal) else AwaitingSignal)
  {
    FlatRoundTrip(s.tracker, s.ch.signals[0], c.caps);
  }

  lemma ReceivedRecords(c: Config, s: State, exact: bool)
    requires RecordsKept(c, s, exact) && TrackerBalance(s) && s.execution == AwaitingSignal && s.ch.signals != []
    ensures RecordsKept(c, ExecutionStep(c, s), exact)
  {
    var saved := RecordsIn(s.log.enqueued);
    assert saved + [] == saved;
    ReceivedState(c, s);
    HandledRecords(saved, s.log.handled, s.ch.signals[0], c.caps, exact);
  }

  lemma SavedOrder(c: Config, s: State, exact: bool)
    requires RecordsKept(c, s, exact) && (exact ==> RoomToSave(c, s)) && s.execution.SavingOrder?
    ensures RecordsKept(c, ExecutionStep(c, s), exact)
  {
    var t, signal := ExecutionStep(c, s), s.execution.signal;
    var order, trade := OrderEvent(ShadowOrder(signal)), TradeEvent(ShadowTrade(signal));
    OfferSaved(c, s, order);
    FirstOffered(RecordsIn(s.log.enqueued), RecordsIn(t.log.enqueued), order, trade,
                 Records(Fitting(s.log.handled, c.caps)), exact);
  }

  lemma SavedTrade(c: Config, s: State, exact: bool)
    requires RecordsKept(c, s, exact) && (exact ==> RoomToSave(c, s)) && s.execution.SavingTrade?
    ensures RecordsKept(c, ExecutionStep(c, s), exact)
  {
    var t, trade := ExecutionStep(c, s), TradeEvent(ShadowTrade(s.execution.signal));
    OfferSaved(c, s, trade);
    LastOffered(RecordsIn(s.log.enqueued), RecordsIn(t.log.enqueued), trade,
                Records(Fitting(s.log.handled, c.caps)), exact);
  }

  lemma ExecutionRecords(c: Config, s: State, exact: bool)
    requires RecordsKept(c, s, exact) && TrackerBalance(s) && (exact ==> RoomToSave(c, s))
    ensures RecordsKept(c, ExecutionStep(c, s), exact)
  {
    match s.execution {
      case AwaitingSignal =>
        if s.ch.signals != [] {
          ReceivedRecords(c, s, exact);
        }
      case SavingOrder(_) => SavedOrder(c, s, exact);
      case SavingTrade(_) => SavedTrade(c, s, exact);
      case ExecutionDone =>
    }
  }

  /** A strategy step saves no orders or trades, and leaves execution alone. */
  lemma StrategyRecords(c: Config, s: State)
    ensures var t := StrategyStep(c, s);
            && RecordsIn(t.log.enqueued) == RecordsIn(s.log.enqueued)
            && t.execution == s.execution && t.log.handled == s.log.handled
  {
    if s.strategy.SavingSignal? {
      OfferSaved(c, s, SignalEvent(s.strategy.signal));
    }
  }

  lemma ExecutionSignals(c: Config, s: State)
    ensures var t := ExecutionStep(c, s);
            && SignalsIn(t.log.enqueued) == SignalsIn(s.log.enqueued)
            && t.strategy == s.strategy && t.log.generated == s.log.generated
  {
    match s.execution {
      case SavingOrder(signal) => OfferSaved(c, s, OrderEvent(ShadowOrder(signal)));
      case SavingTrade(signal) => OfferSaved(c, s, TradeEvent(ShadowTrade(signal)));
      case _ =>
    }
  }

  /** A step that saves nothing of either kind and leaves strategy and execution alone. */
  lemma NothingElseSaved(c: Config, s: State, t: State, exact: bool)
    requires SignalsKept(s, exact) && RecordsKept(c, s, exact)
    requires SameSaved(s, t) && SameSignals(s, t) && SameExecution(s, t)
    ensures SignalsKept(t, exact) && RecordsKept(c, t, exact)
  {
  }

  lemma IngestSaves(c: Config, s: State, stop: bool, exact: bool)
    requires SignalsKept(s, exact) && RecordsKept(c, s, exact)
    ensures SignalsKept(IngestStep(c, s, stop), exact) && RecordsKept(c, IngestStep(c, s, stop), exact)
  {
    IngestSaved(c, s, stop);
    IngestFrame(c, s, stop);
    NothingElseSaved(c, s, IngestStep(c, s, stop), exact);
  }

  lemma StrategySaves(c: Config, s: State, exact: bool)
    requires SignalsKept(s, exact) && RecordsKept(c, s, exact) && (exact ==> RoomToSave(c, s))
    ensures SignalsKept(StrategyStep(c, s), exact) && RecordsKept(c, StrategyStep(c, s), exact)
  {
    StrategySignals(c, s, exact);
    StrategyRecords(c, s);
  }

  lemma ExecutionSaves(c: Config, s: State, exact: bool)
    requires SignalsKept(s, exact) && RecordsKept(c, s, exact) && (exact ==> RoomToSave(c, s)) && TrackerBalance(s)
    ensures SignalsKept(ExecutionStep(c, s), exact) && RecordsKept(c, ExecutionStep(c, s), exact)
  {
    ExecutionRecords(c, s, exact);
    ExecutionSignals(c, s);
  }

  lemma PersistFrame(s: State, outcomes: seq<bool>)
    ensures SameSaved(s, PersistStep(s, outcomes)) && SameSaved(s, TimerStep(s, outcomes))
    ensures SameSignals(s, PersistStep(s, outcomes)) && SameSignals(s, TimerStep(s, outcomes))
    ensures SameExecution(s, PersistStep(s, outcomes)) && SameExecution(s, TimerStep(s, outcomes))
  {
  }

  lemma PersistSaves(c: Config, s: State, outcomes: seq<bool>, exact: bool)
    requires SignalsKept(s, exact) && RecordsKept(c, s, exact)
    ensures SignalsKept(PersistStep(s, outcomes), exact) && RecordsKept(c, PersistStep(s, outcomes), exact)
    ensures SignalsKept(TimerStep(s, outcomes), exact) && RecordsKept(c, TimerStep(s, outcomes), exact)
  {
    PersistFrame(s, outcomes);
    NothingElseSaved(c, s, PersistStep(s, outcomes), exact);
    NothingElseSaved(c, s, TimerStep(s, outcomes), exact);
  }

  lemma NextSaves(c: Config, s: State, a: Action, exact: bool)
    requires TrackerBalance(s) && SignalsKept(s, exact) && RecordsKept(c, s, exact) && (exact ==> RoomToSave(c, s))
    ensures SignalsKept(Next(c, s, a), exact) && RecordsKept(c, Next(c, s, a), exact)
  {
    if !s.halted {
      match a {
        case PollIngest(stop) => IngestSaves(c, s, stop, exact);
        case PollStrategy => StrategySaves(c, s, exact);
        case PollExecution => ExecutionSaves(c, s, exact);
        case PollPersist(outcomes) => PersistSaves(c, s, outcomes, exact);
        case FlushTimer(outcomes) => PersistSaves(c, s, outcomes, exact);
      }
    }
  }

  lemma RoomWhenAmple(c: Config, s: State)
    requires Ample(c) && Inv(c, s) && FewEvents(s)
    ensures RoomToSave(c, s)
  {
    SignalsAtMostTicks(s.log.consumed);
  }

  /** In every run; exactly, when the channels have room for the whole file. */
  lemma {:induction false} RunSaves(c: Config, schedule: seq<Action>, exact: bool)
    requires exact ==> Ample(c)
    ensures SignalsKept(Run(c, schedule), exact) && RecordsKept(c, Run(c, schedule), exact)
  {
    if schedule == [] {
      NothingSaved(c, exact);
    } else {
      var past := schedule[..|schedule| - 1];
      RunSaves(c, past, exact);
      RunKeeps(c, past);
      RunFewEvents(c, past);
      if exact {
        RoomWhenAmple(c, Run(c, past));
      }
      NextSaves(c, Run(c, past), schedule[|schedule| - 1], exact);
    }
  }

  lemma NothingSaved(c: Config, exact: bool)
    ensures SignalsKept(Init(), exact) && RecordsKept(c, Init(), exact)
  {
  }

  // ----- the laws -----

  /** Best-effort persistence never invents, duplicates or reorders: whatever the interleaving and
      the capacities, the signals enqueued are generated ones in their order, and the orders and
      trades enqueued are those of executed signals in their order. */
  lemma {:induction false} OnlyWhatHappened(c: Config, schedule: seq<Action>)
    ensures var s := Run(c, schedule);
            && Subsequence(SignalsIn(s.log.enqueued), s.log.generated)
            && Subsequence(RecordsIn(s.log.enqueued), Records(Fitting(s.log.handled, c.caps)))
  {
    RunSaves(c, schedule, false);
    var s := Run(c, schedule);
    DropPending(SignalsIn(s.log.enqueued), PendingSignal(s), s.log.generated);
    DropPending(RecordsIn(s.log.enqueued), PendingRecords(s), Records(Fitting(s.log.handled, c.caps)));
  }

  lemma {:induction false} DropPending<T>(a: seq<T>, pending: seq<T>, b: seq<T>)
    requires Subsequence(a + pending, b)
    ensures Subsequence(a, b)
    decreases |pending|
  {
    if pending == [] {
      assert a + pending == a;
    } else {
      SubsequenceDropLast(a + pending, b);
      assert (a + pending)[..|a + pending| - 1] == a + pending[..|pending| - 1];
      DropPending(a, pending[..|pending| - 1], b);
    }
  }

  /** What a complete replay attempts to persist, as a function of the file and the caps. */
  ghost predicate PersistedAll(c: Config, attempted: seq<PersistEvent>) {
    && TicksOf(attempted) == Sampled(c.lines, c.sampleEvery)
    && SignalsIn(attempted) == FileSignals(c)
    && RecordsIn(attempted) == Records(Fitting(FileSignals(c), c.caps))
  }

  lemma AllHandled(c: Config, s: State)
    requires Inv(c, s) && Drained(c, s) && s.m.dropsSignal == 0
    ensures s.log.handled == s.log.generated
  {
    SubsequenceAll(s.log.delivered, s.log.generated);
    assert s.log.handled + [] == s.log.handled;
  }

  /** With room for the whole file, a replay that read it all and finished has attempted to persist
      exactly the sampled ticks, every signal the file determines, and an order with its trade for
      each signal that fits the caps, each kind in order. */
  lemma {:induction false} EverythingIsPersisted(c: Config, schedule: seq<Action>)
    requires Ample(c) && Run(c, schedule).persistDone && Run(c, schedule).ingest == IngestDone(true)
    ensures PersistedAll(c, Run(c, schedule).persist.attempted)
  {
    var s := Run(c, schedule);
    RunKeeps(c, schedule);
    DoneIsDrained(c, s);
    AmpleCapacity(c, schedule);
    AllHandled(c, s);
    ScheduleIndependence(c, schedule);
    SentPrefix(c, s);
    RunSaves(c, schedule, true);
    assert SignalsIn(s.log.enqueued) + [] == SignalsIn(s.log.enqueued);
    assert RecordsIn(s.log.enqueued) + [] == RecordsIn(s.log.enqueued);
  }

  lemma {:induction false} ReadToTheEnd(c: Config, sched: nat -> Action, n: nat)
    requires forall k: nat :: sched(k) != PollIngest(true)
    ensures StateAt(c, sched, n).ingest != IngestDone(false)
  {
    if n > 0 {
      ReadToTheEnd(c, sched, n - 1);
      assert Prefix(sched, n)[..n - 1] == Prefix(sched, n - 1);
      assert sched(n - 1) != PollIngest(true);
      IngestNotStopped(c, StateAt(c, sched, n - 1), sched(n - 1));
    }
  }

  lemma IngestNotStopped(c: Config, s: State, a: Action)
    requires s.ingest != IngestDone(false) && a != PollIngest(true)
    ensures Next(c, s, a).ingest != IngestDone(false)
  {
  }

  /** So it happens: with room for the whole file, every fair run that is not stopped early gets
      there. */
  lemma {:induction false} FairReplayPersistsTheFile(c: Config, sched: nat -> Action) returns (k: nat)
    requires Ample(c) && Fair(sched) && forall n: nat :: sched(n) != PollIngest(true)
    ensures StateAt(c, sched, k).persistDone && PersistedAll(c, StateAt(c, sched, k).persist.attempted)
  {
    k := EveryFairRunEnds(c, sched, 0);
    AmpleCapacity(c, Prefix(sched, k));
    ReadToTheEnd(c, sched, k);
    EverythingIsPersisted(c, Prefix(sched, k));
  }

  /** The timer leaves nothing behind: after it fires, everything received was attempted. */
  lemma {:induction false} TimerFlushesAll(c: Config, schedule: seq<Action>, outcomes: seq<bool>)
    ensures var s := Run(c, schedule + [FlushTimer(outcomes)]);
            s.halted || (s.persist.attempted == s.log.received && s.persist.buffer == [])
  {
    RunPush(c, schedule, FlushTimer(outcomes));
    RunKeeps(c, schedule);
    TimerFlushes(c, Run(c, schedule), outcomes);
  }

  lemma TimerFlushes(c: Config, s: State, outcomes: seq<bool>)
    requires Inv(c, s)
    ensures var t := Next(c, s, FlushTimer(outcomes));
            t.halted || (t.persist.attempted == t.log.received && t.persist.buffer == [])
  {
    FlushBalanced(s.persist, s.log.received, outcomes);
  }
}
