/** Schedules that fill the signal channel: for every file of well-formed lines, and one file on which
    a signal is lost. */
module PipelineOverflow {
  import opened Wrappers
  import opened Sequences
  import opened Types
  import opened Ingest
  import opened Strategy
  import opened Execution
  import opened Persist
  import opened Pipeline
  import opened PipelineLaws
  import opened PipelineDrops

  // ----- one tick at a time through ingest, strategy and persist -----

  /** Every line parses and is sampled, and a tick and a persist event fit their channels. */
  predicate OneByOne(c: Config) {
    && (forall i :: 0 <= i < |c.lines| ==> c.lines[i].Parsed?)
    && c.sampleEvery == 1 && c.tickCap >= 1 && c.persistCap >= 1
  }

  /** `k` lines are read and everything but the signal queue is at rest. */
  ghost predicate AtRest(c: Config, s: State, k: nat) {
    && !s.halted && s.ingest == Reading && s.cursor == k <= |c.lines| && s.strategy == AwaitingTick
    && s.ch.ticks == [] && s.ch.events == [] && !s.persistDone
  }

  /** A tick of the file is queued for the strategy, and persisted. */
  lemma TickSent(c: Config, s: State, k: nat)
    requires OneByOne(c) && AtRest(c, s, k) && k < |c.lines|
    ensures var t := IngestStep(c, s, false);
            && !t.halted && t.ingest == OfferingTick(c.lines[k].tick) && t.cursor == k + 1
            && t.strategy == AwaitingTick && t.ch.ticks == [c.lines[k].tick] && t.ch.events == [] && !t.persistDone
  {
    assert Due(s.sequence + 1, 1);
  }

  /** The strategy has consumed the tick: it is at rest or holds a signal. */
  ghost predicate Consumed(c: Config, s: State, k: nat) {
    && !s.halted && s.ingest == Reading && s.cursor == k <= |c.lines|
    && (s.strategy == AwaitingTick || s.strategy.OfferingSignal?)
    && s.ch.ticks == [] && s.ch.events == [] && !s.persistDone
  }

  lemma TickPersisted(c: Config, s: State, tick: Tick, k: nat)
    requires OneByOne(c) && !s.halted && s.ingest == OfferingTick(tick) && s.cursor == k <= |c.lines|
    requires s.strategy == AwaitingTick && s.ch.ticks == [tick] && s.ch.events == [] && !s.persistDone
    ensures Consumed(c, StrategyStep(c, PersistStep(IngestStep(c, s, false), [])), k)
  {
    var t := PersistStep(IngestStep(c, s, false), []);
    assert t.ch.events == [] && t.ch.ticks == [tick] && t.strategy == AwaitingTick;
    var (sma, side) := OnPrice(t.sma, tick.price);
    assert StrategyStep(c, t) == Consume(t, sma, side);
    TickConsumed(c, t, sma, side, k);
  }

  lemma TickConsumed(c: Config, s: State, sma: SmaState, side: Option<Side>, k: nat)
    requires !s.halted && s.ingest == Reading && s.cursor == k <= |c.lines| && s.strategy == AwaitingTick
    requires |s.ch.ticks| == 1 && s.ch.events == [] && !s.persistDone
    ensures Consumed(c, Consume(s, sma, side), k)
  {
  }

  lemma SignalOffered(c: Config, s: State, k: nat)
    requires OneByOne(c) && Consumed(c, s, k)
    ensures AtRest(c, PersistStep(StrategyStep(c, StrategyStep(c, s)), []), k)
  {
    if s.strategy.OfferingSignal? {
      var t := StrategyStep(c, s);
      assert t.strategy.SavingSignal? && t.ch.events == [];
      var u := StrategyStep(c, t);
      assert u.ch.events == [SignalEvent(t.strategy.signal)] && u.ch.ticks == [];
    }
  }

  /** One line through the three tasks; execution is not polled. */
  function Rounds(n: nat): seq<Action> {
    if n == 0 then []
    else
      Rounds(n - 1) + [PollIngest(false)] + [PollIngest(false)] + [PollPersist([])]
      + [PollStrategy] + [PollStrategy] + [PollStrategy] + [PollPersist([])]
  }

  lemma {:induction false} RoundsStarve(n: nat)
    ensures PollExecution !in Rounds(n)
  {
    if n > 0 {
      RoundsStarve(n - 1);
    }
  }

  /** Sending one line's tick, persisting it and consuming it. */
  function FourSteps(c: Config, s: State): State {
    Next(c, Next(c, Next(c, Next(c, s, PollIngest(false)), PollIngest(false)), PollPersist([])), PollStrategy)
  }

  lemma RoundIs(c: Config, past: seq<Action>)
    ensures Run(c, past + [PollIngest(false)] + [PollIngest(false)] + [PollPersist([])] + [PollStrategy])
            == FourSteps(c, Run(c, past))
  {
    RunPush(c, past, PollIngest(false));
    RunPush(c, past + [PollIngest(false)], PollIngest(false));
    RunPush(c, past + [PollIngest(false)] + [PollIngest(false)], PollPersist([]));
    RunPush(c, past + [PollIngest(false)] + [PollIngest(false)] + [PollPersist([])], PollStrategy);
  }

  lemma RoundEnds(c: Config, past: seq<Action>)
    ensures Run(c, past + [PollStrategy] + [PollStrategy] + [PollPersist([])])
            == Next(c, Next(c, Next(c, Run(c, past), PollStrategy), PollStrategy), PollPersist([]))
  {
    RunPush(c, past, PollStrategy);
    RunPush(c, past + [PollStrategy], PollStrategy);
    RunPush(c, past + [PollStrategy] + [PollStrategy], PollPersist([]));
  }

  lemma FirstHalf(c: Config, s: State, k: nat)
    requires OneByOne(c) && AtRest(c, s, k) && k < |c.lines|
    ensures Consumed(c, FourSteps(c, s), k + 1)
  {
    TickSent(c, s, k);
    var t := IngestStep(c, s, false);
    TickPersisted(c, t, c.lines[k].tick, k + 1);
    var u := IngestStep(c, t, false);
    assert !u.halted && Next(c, t, PollIngest(false)) == u;
    assert !PersistStep(u, []).halted;
  }

  lemma SecondHalf(c: Config, s: State, k: nat)
    requires OneByOne(c) && Consumed(c, s, k)
    ensures AtRest(c, Next(c, Next(c, Next(c, s, PollStrategy), PollStrategy), PollPersist([])), k)
  {
    SignalOffered(c, s, k);
    assert !StrategyStep(c, s).halted && !StrategyStep(c, StrategyStep(c, s)).halted;
  }

  lemma {:induction false} RoundsRead(c: Config, n: nat)
    requires OneByOne(c) && n <= |c.lines|
    ensures AtRest(c, Run(c, Rounds(n)), n)
  {
    if n > 0 {
      RoundsRead(c, n - 1);
      var past := Rounds(n - 1);
      var half := past + [PollIngest(false)] + [PollIngest(false)] + [PollPersist([])] + [PollStrategy];
      RoundIs(c, past);
      FirstHalf(c, Run(c, past), n - 1);
      RoundEnds(c, half);
      SecondHalf(c, Run(c, half), n);
      assert Rounds(n) == half + [PollStrategy] + [PollStrategy] + [PollPersist([])];
    }
  }

  lemma {:induction false} EveryOne<T>(s: seq<T>)
    ensures EveryKth(s, 1) == s
  {
    if s != [] {
      var n := |s| - 1;
      EveryOne(s[..n]);
      assert Due(|s|, 1) && s == s[..n] + [s[n]];
    }
  }

  /** Reachable for every such file: while execution waits, the channel takes as many signals as it
      has places, in order, and every later signal of the file is lost. */
  lemma {:induction false} OverflowIsReachable(c: Config)
    requires OneByOne(c)
    ensures var s, all := Run(c, Rounds(|c.lines|)), FileSignals(c);
            var n := if |all| < c.signalCap then |all| else c.signalCap;
            s.ch.signals == all[..n] && s.log.dropped == all[n..] && s.m.dropsSignal == |all| - n
  {
    var s, all := Run(c, Rounds(|c.lines|)), FileSignals(c);
    RoundsRead(c, |c.lines|);
    RoundsStarve(|c.lines|);
    StarvedExecution(c, Rounds(|c.lines|));
    RunDropBalance(c, Rounds(|c.lines|));
    AllGenerated(c, s);
    assert all[..|s.log.delivered|] == s.log.delivered && all[|s.log.delivered|..] == s.log.dropped;
  }

  lemma AllGenerated(c: Config, s: State)
    requires AtRest(c, s, |c.lines|)
    requires exists schedule :: s == Run(c, schedule)
    ensures Settled(s) == FileSignals(c)
  {
    var schedule :| s == Run(c, schedule);
    RunKeeps(c, schedule);
    assert c.lines[..s.cursor] == c.lines;
    assert s.log.consumed + [] == s.log.consumed;
  }

  // ----- a file on which it happens -----

  /** Twenty flat prices, a rise and a fall. */
  function RiseAndFall(i: nat): real {
    if i < 20 then 100.0 else if i == 20 then 110.0 else 80.0
  }

  function TickAt(i: nat): Tick {
    Tick("BTCUSDT", RiseAndFall(i), 1.0, i)
  }

  /** That file, with one place in the signal channel. */
  ghost predicate Crossings(c: Config) {
    && |c.lines| == 22 && (forall i :: 0 <= i < 22 ==> c.lines[i] == Parsed(TickAt(i)))
    && c.sampleEvery == 1 && c.tickCap >= 1 && c.signalCap == 1 && c.persistCap >= 1
  }

  lemma CrossingsExist() returns (c: Config)
    ensures Crossings(c)
  {
    var lines := seq(22, i requires 0 <= i < 22 => Parsed(TickAt(i)));
    c := Config(lines, 1, RiskCaps(1000.0, 1000.0, 10), 10, 1, 10);
  }

  lemma {:induction false} FlatSum(s: seq<real>, p: real)
    requires forall i :: 0 <= i < |s| ==> s[i] == p
    ensures Sum(s) == p * |s| as real
  {
    if s != [] {
      FlatSum(s[..|s| - 1], p);
      assert p * (|s| - 1) as real + p == p * |s| as real;
    }
  }

  /** The sum of a window that is flat but for its last price, and but for its last two. */
  lemma AlmostFlatSum(s: seq<real>, p: real)
    requires |s| >= 2 && forall i :: 0 <= i < |s| - 2 ==> s[i] == p
    ensures Sum(s) == p * (|s| - 2) as real + s[|s| - 2] + s[|s| - 1]
  {
    var n := |s|;
    FlatSum(s[..n - 2], p);
    assert s[..n - 1][..n - 2] == s[..n - 2];
  }

  lemma WindowMean(h: seq<real>, w: nat)
    requires w >= 2 && |h| >= w && forall i :: 0 <= i < |h| - 2 ==> h[i] == 100.0
    ensures Mean(LastN(h, w)) * w as real == 100.0 * (w - 2) as real + h[|h| - 2] + h[|h| - 1]
  {
    AlmostFlatSum(LastN(h, w), 100.0);
  }

  lemma Quotients(short: real, long: real, a: real, b: real)
    requires short * 5.0 == 300.0 + a + b && long * 20.0 == 1800.0 + a + b
    ensures (short - long) * 20.0 == 3.0 * (a + b) - 600.0
  {
  }

  lemma CrossingDiff(h: seq<real>)
    requires |h| >= 20 && forall i :: 0 <= i < |h| - 2 ==> h[i] == 100.0
    ensures Diff(h) * 20.0 == 3.0 * (h[|h| - 2] + h[|h| - 1]) - 600.0
  {
    WindowMean(h, SMA_SHORT_WINDOW);
    WindowMean(h, SMA_LONG_WINDOW);
    Quotients(Mean(LastN(h, SMA_SHORT_WINDOW)), Mean(LastN(h, SMA_LONG_WINDOW)), h[|h| - 2], h[|h| - 1]);
  }

  lemma {:induction false} QuietWarmup(ticks: seq<Tick>)
    requires |ticks| <= SMA_LONG_WINDOW
    ensures Signals(ticks) == []
  {
    if ticks != [] {
      QuietWarmup(ticks[..|ticks| - 1]);
    }
  }

  /** At the rise the short average crosses above the long one, at the fall below. */
  lemma TwoCrossings(h: seq<real>)
    requires |h| == 22 && forall i :: 0 <= i < 22 ==> h[i] == RiseAndFall(i)
    ensures SideAt(h, 20) == Some(Buy) && SideAt(h, 21) == Some(Sell)
  {
    CrossingDiff(h[..20]);
    CrossingDiff(h[..21]);
    CrossingDiff(h);
    assert h[..22] == h;
  }

  lemma TwoSignals(ticks: seq<Tick>)
    requires |ticks| == 22 && forall i :: 0 <= i < 22 ==> ticks[i] == TickAt(i)
    ensures Signals(ticks) == [MakeSignal(TickAt(20), Buy), MakeSignal(TickAt(21), Sell)]
  {
    var h := Prices(ticks);
    TwoCrossings(h);
    QuietWarmup(ticks[..20]);
    assert ticks[..21][..20] == ticks[..20] && Prices(ticks[..21]) == h[..21];
    PrefixSide(h, 21, 20);
    SignalsLast(ticks[..21], ticks[..20], ticks[20], h[..21]);
    SignalsLast(ticks, ticks[..21], ticks[21], h);
  }

  lemma PrefixSide(h: seq<real>, n: nat, k: nat)
    requires k < n <= |h|
    ensures SideAt(h[..n], k) == SideAt(h, k)
  {
    assert h[..n][..k] == h[..k] && h[..n][..k + 1] == h[..k + 1];
  }

  lemma ParsedAll(lines: seq<Line>, ticks: seq<Tick>)
    requires |lines| == |ticks| && forall i :: 0 <= i < |lines| ==> lines[i] == Parsed(ticks[i])
    ensures ParsedTicks(lines) == ticks
  {
    if lines != [] {
      var n := |lines| - 1;
      ParsedAll(lines[..n], ticks[..n]);
      assert ticks == ticks[..n] + [ticks[n]];
    }
  }

  lemma CrossingsSignals(c: Config)
    requires Crossings(c)
    ensures FileSignals(c) == [MakeSignal(TickAt(20), Buy), MakeSignal(TickAt(21), Sell)]
  {
    var ticks := seq(22, i requires 0 <= i < 22 => TickAt(i));
    ParsedAll(c.lines, ticks);
    EveryOne(ticks);
    TwoSignals(ticks);
  }

  lemma CrossingsOneByOne(c: Config)
    requires Crossings(c)
    ensures OneByOne(c) && c.signalCap == 1
  {
  }

  /** Of two signals the second is lost. */
  lemma SecondLost(c: Config, first: Signal, second: Signal)
    requires OneByOne(c) && c.signalCap == 1 && FileSignals(c) == [first, second]
    ensures LosesNewest(Run(c, Rounds(|c.lines|)), first, second)
  {
    OverflowIsReachable(c);
    assert [first, second][..1] == [first] && [first, second][1..] == [second];
  }

  /** The older signal is queued, and the newer one was dropped. */
  ghost predicate LosesNewest(s: State, older: Signal, newer: Signal) {
    s.ch.signals == [older] && s.log.dropped == [newer] && s.m.dropsSignal == 1
  }

  /** This file loses its newest signal, the SELL, while the older BUY stays queued. */
  lemma {:induction false} NewestLostWitness() returns (c: Config, schedule: seq<Action>)
    ensures LosesNewest(Run(c, schedule), Signal("BTCUSDT", Buy, 0.75, SmaCrossover, 0.1, 20),
                        Signal("BTCUSDT", Sell, 0.75, SmaCrossover, 0.1, 21))
  {
    c := CrossingsExist();
    schedule := Rounds(|c.lines|);
    CrossingsOneByOne(c);
    CrossingsSignals(c);
    SecondLost(c, MakeSignal(TickAt(20), Buy), MakeSignal(TickAt(21), Sell));
  }
}
