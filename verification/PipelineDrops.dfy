/** What is lost when the signal channel is full: the newest signal, never one that is queued. */
module PipelineDrops {
  import opened Wrappers
  import opened Sequences
  import opened Types
  import opened Ingest
  import opened Strategy
  import opened Execution
  import opened Persist
  import opened Pipeline
  import opened PipelineLaws

  // ----- one offer -----

  /** Nothing joins and nothing is lost. */
  ghost predicate NoOffer(s: State, t: State) {
    && t.log.delivered == s.log.delivered && t.log.dropped == s.log.dropped
    && t.m.dropsSignal == s.m.dropsSignal && Settled(t) == Settled(s)
  }

  ghost predicate Offers(s: State, a: Action) {
    !s.halted && a == PollStrategy && s.strategy.OfferingSignal?
  }

  lemma OfferStep(c: Config, s: State)
    requires SignalBalance(c, s) && s.strategy.OfferingSignal?
    ensures var t := StrategyStep(c, s);
            && OfferedOrLost(c, s, t, s.strategy.signal) && Settled(t) == Settled(s) + [s.strategy.signal]
            && t.m.dropsSignal == s.m.dropsSignal + (if |s.ch.signals| < c.signalCap then 0 else 1)
  {
    StrategyOffers(c, s);
  }

  lemma ConsumeOffersNothing(c: Config, s: State, sma: SmaState, side: Option<Side>)
    requires s.strategy == AwaitingTick && s.ch.ticks != []
    ensures NoOffer(s, Consume(s, sma, side))
  {
    if side.Some? {
      var signal := MakeSignal(s.ch.ticks[0], side.value);
      assert (s.log.generated + [signal])[..|s.log.generated|] == s.log.generated;
    }
  }

  lemma StrategyElse(c: Config, s: State)
    requires !s.strategy.OfferingSignal?
    ensures NoOffer(s, StrategyStep(c, s))
  {
    if s.strategy == AwaitingTick && s.ch.ticks != [] {
      var (sma, side) := OnPrice(s.sma, s.ch.ticks[0].price);
      ConsumeOffersNothing(c, s, sma, side);
    }
  }

  lemma ExecutionOffersNothing(c: Config, s: State)
    ensures NoOffer(s, ExecutionStep(c, s))
  {
  }

  lemma PersistOffersNothing(s: State, outcomes: seq<bool>)
    ensures NoOffer(s, PersistStep(s, outcomes)) && NoOffer(s, TimerStep(s, outcomes))
  {
  }

  lemma ElseNoOffer(c: Config, s: State, a: Action)
    requires !Offers(s, a)
    ensures NoOffer(s, Next(c, s, a))
  {
    if !s.halted {
      match a {
        case PollIngest(stop) => IngestFrame(c, s, stop);
        case PollStrategy => StrategyElse(c, s);
        case PollExecution => ExecutionOffersNothing(c, s);
        case PollPersist(outcomes) => PersistOffersNothing(s, outcomes);
        case FlushTimer(outcomes) => PersistOffersNothing(s, outcomes);
      }
    }
  }

  // ----- whole runs -----

  /** Every signal that was offered is delivered or dropped, each kind in order. */
  ghost predicate DropBalance(s: State) {
    s.m.dropsSignal == |s.log.dropped| && Interleaved(s.log.delivered, s.log.dropped, Settled(s))
  }

  lemma DropBalanceNext(c: Config, s: State, a: Action)
    requires SignalBalance(c, s) && DropBalance(s)
    ensures DropBalance(Next(c, s, a))
  {
    if Offers(s, a) {
      OfferStep(c, s);
      InterleavedPush(s.log.delivered, s.log.dropped, Settled(s), s.strategy.signal);
    } else {
      ElseNoOffer(c, s, a);
    }
  }

  lemma {:induction false} RunDropBalance(c: Config, schedule: seq<Action>)
    ensures DropBalance(Run(c, schedule))
  {
    if schedule == [] {
      NothingDropped();
    } else {
      var past := schedule[..|schedule| - 1];
      RunDropBalance(c, past);
      RunKeeps(c, past);
      DropBalanceNext(c, Run(c, past), schedule[|schedule| - 1]);
    }
  }

  lemma NothingDropped()
    ensures DropBalance(Init())
  {
  }

  /** The policy, at any moment of any run: an offered signal joins the end of the queue exactly
      when there is room; otherwise the queue and everything delivered stay as they are, and the
      signal lost is the newest one generated. No other step loses a signal, and what is queued
      leaves only to be handled, oldest first. */
  lemma {:induction false} NewestIsDropped(c: Config, schedule: seq<Action>, a: Action)
    ensures var s, t := Run(c, schedule), Run(c, schedule + [a]);
            && (if Offers(s, a) then
                  && s.log.generated != [] && s.strategy.signal == s.log.generated[|s.log.generated| - 1]
                  && OfferedOrLost(c, s, t, s.strategy.signal)
                else t.log.delivered == s.log.delivered && t.log.dropped == s.log.dropped)
            && t.log.handled + t.ch.signals == t.log.delivered
  {
    var s := Run(c, schedule);
    RunPush(c, schedule, a);
    RunKeeps(c, schedule);
    RunKeeps(c, schedule + [a]);
    if Offers(s, a) {
      OfferStep(c, s);
      assert s.log.generated == Settled(s) + [s.strategy.signal];
    } else {
      ElseNoOffer(c, s, a);
    }
  }

  /** The moment at which the k-th dropped signal was lost: it was being offered, and the channel
      was full. */
  ghost predicate LostAt(c: Config, schedule: seq<Action>, k: nat, n: nat) {
    && k < |Run(c, schedule).log.dropped| && n < |schedule| && schedule[n] == PollStrategy
    && var s := Run(c, schedule[..n]);
       && !s.halted && s.strategy == OfferingSignal(Run(c, schedule).log.dropped[k])
       && |s.ch.signals| == c.signalCap && |s.log.dropped| == k
  }

  lemma {:induction false} DroppedAtFullChannel(c: Config, schedule: seq<Action>, k: nat) returns (n: nat)
    requires k < |Run(c, schedule).log.dropped|
    ensures LostAt(c, schedule, k, n)
  {
    var last := |schedule| - 1;
    var past, a := schedule[..last], schedule[last];
    var s := Run(c, past);
    assert schedule == past + [a];
    NewestIsDropped(c, past, a);
    if k < |s.log.dropped| {
      n := DroppedAtFullChannel(c, past, k);
      assert past[..n] == schedule[..n];
    } else {
      RunKeeps(c, past);
      n := last;
    }
  }

  // ----- a run in which execution is starved -----

  /** Nothing was handled yet; the queue took the first signals, and the rest was dropped. */
  ghost predicate Starved(c: Config, s: State) {
    var settled := Settled(s);
    && s.log.handled == [] && s.ch.signals == s.log.delivered
    && s.log.delivered + s.log.dropped == settled
    && |s.log.delivered| == (if |settled| < c.signalCap then |settled| else c.signalCap)
  }

  lemma IngestSignals(c: Config, s: State, stop: bool)
    ensures SameSignals(s, IngestStep(c, s, stop))
  {
    IngestFrame(c, s, stop);
  }

  /** Only the strategy and execution touch the signal channel. */
  lemma QueueUntouched(c: Config, s: State, a: Action)
    requires !Offers(s, a) && a != PollExecution
    ensures Next(c, s, a).ch.signals == s.ch.signals && Next(c, s, a).log.handled == s.log.handled
  {
    if !s.halted {
      match a {
        case PollIngest(stop) => IngestSignals(c, s, stop);
        case PollStrategy =>
        case PollPersist(_) =>
        case FlushTimer(_) =>
      }
    }
  }

  lemma OfferHandlesNothing(c: Config, s: State)
    requires s.strategy.OfferingSignal?
    ensures StrategyStep(c, s).log.handled == s.log.handled
  {
  }

  lemma StarvedNext(c: Config, s: State, a: Action)
    requires SignalBalance(c, s) && Starved(c, s) && a != PollExecution
    ensures Starved(c, Next(c, s, a))
  {
    if Offers(s, a) {
      OfferStep(c, s);
      OfferHandlesNothing(c, s);
      var t, signal := StrategyStep(c, s), s.strategy.signal;
      if |s.ch.signals| < c.signalCap {
        assert s.log.dropped == [];
        assert t.log.delivered + t.log.dropped == Settled(t);
      } else {
        assert t.log.delivered + t.log.dropped == (s.log.delivered + s.log.dropped) + [signal];
      }
    } else {
      ElseNoOffer(c, s, a);
      QueueUntouched(c, s, a);
    }
  }

  /** While execution is not polled, the first signals of the file fill the channel and every later
      one is dropped. */
  lemma {:induction false} StarvedExecution(c: Config, schedule: seq<Action>)
    requires PollExecution !in schedule
    ensures Starved(c, Run(c, schedule))
  {
    if schedule != [] {
      var past := schedule[..|schedule| - 1];
      StarvedExecution(c, past);
      RunKeeps(c, past);
      StarvedNext(c, Run(c, past), schedule[|schedule| - 1]);
    }
  }
}
