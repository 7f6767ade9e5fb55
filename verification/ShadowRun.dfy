/** The shadow trading loop (scripts/run_shadow_stale_edge.py): feed-abort latch, decision
    cascade, rate limits, exposure cap and cancel reset, over whole runs.

    The clock, the price feed and the book of each iteration are inputs. The book may be anything,
    so the simulated, Polymarket and Kalshi books are all covered. */
module ShadowRun {
  import opened Wrappers
  import opened RiskRules
  import opened RateLimiting
  import opened ReturnModel
  import opened StaleEdge

  datatype Setup = Setup(
    rules: Rules, marketId: string, sourceKnown: bool, forceFeedFailure: bool, marketEndMs: int, startMs: int)

  datatype Input = Input(nowMs: int, feed: Option<(real, int)>, book: Option<BookTop>)

  /** A journalled decision. */
  datatype Row = Row(now: int, decision: Decision)

  /** The two limiters, with the times at which each was called. */
  datatype Limits = Limits(orderStamps: seq<int>, cancelStamps: seq<int>, asked: seq<int>, cancelsAsked: seq<int>)

  datatype State = State(
    feedAbort: bool, lastOkMs: Option<int>, model: Model, lim: Limits, exposure: Exposure, rows: seq<Row>)

  function Start(): State {
    State(false, None, Model([], []), Limits([], [], [], []), NO_EXPOSURE, [])
  }

  /** The feed is consulted only for a known source, and not when a failure is forced. */
  function FeedSeen(setup: Setup, input: Input): Option<(real, int)> {
    if setup.sourceKnown && !setup.forceFeedFailure then input.feed else None
  }

  function LastOk(setup: Setup, lastOkMs: Option<int>, input: Input): Option<int> {
    if FeedSeen(setup, input).Some? then Some(input.nowMs) else lastOkMs
  }

  /** The feed has been silent for too long, counted from the start while it never answered. */
  predicate FeedTooOld(setup: Setup, lastOkMs: Option<int>, nowMs: int) {
    nowMs - (if lastOkMs.Some? then lastOkMs.value else setup.startMs) > setup.rules.feedStaleAbortSec * 1000
  }

  function Cascade(setup: Setup, feedAbort: bool, m: Model, input: Input): (Model, Decision) {
    if !setup.sourceKnown then (m, Refuse(ResolutionSourceUnknown, NO_QUOTES))
    else if feedAbort then (m, Refuse(FeedStaleAbort, NO_QUOTES))
    else
      match input.book
      case None => (m, Refuse(BookDataMissing, NO_QUOTES))
      case Some(book) =>
        var feed := FeedSeen(setup, input);
        var mid := if feed.Some? then Some(feed.value.0) else None;
        var midTs := if feed.Some? then Some(feed.value.1) else None;
        Judge(setup.rules, m, mid, midTs, book, setup.marketEndMs, input.nowMs)
  }

  /** The two rate limits: the order limiter is asked for orders, the cancel limiter for cancels. */
  function ApplyRateLimits(rules: Rules, lim: Limits, d: Decision, now: int): (Limits, Decision) {
    if d.action == PlaceOrder then
      var (stamps, ok) := Admit(lim.orderStamps, rules.maxOrdersPerMin, now);
      var lim' := lim.(orderStamps := stamps, asked := lim.asked + [now]);
      if !ok then (lim', Refuse(RateLimit, d.quotes)) else ApplyCancelLimit(rules, lim', d, now)
    else ApplyCancelLimit(rules, lim, d, now)
  }

  function ApplyCancelLimit(rules: Rules, lim: Limits, d: Decision, now: int): (Limits, Decision) {
    if d.cancelAll then
      var (stamps, ok) := Admit(lim.cancelStamps, rules.maxCancelReplacePerMin, now);
      var lim' := lim.(cancelStamps := stamps, cancelsAsked := lim.cancelsAsked + [now]);
      if !ok then (lim', Refuse(CancelRateLimit, d.quotes)) else (lim', d)
    else (lim, d)
  }

  function ApplyExposureCap(rules: Rules, market: string, e: Exposure, d: Decision): (Exposure, Decision) {
    if d.action != PlaceOrder || d.size.None? then (e, d)
    else if !e.CanAdd(market, d.size.value, rules) then (e, Refuse(ExposureCap, d.quotes))
    else (e.Add(market, d.size.value), d)
  }

  /** One iteration of the loop. */
  function Step(setup: Setup, s: State, input: Input): State {
    var lastOkMs := LastOk(setup, s.lastOkMs, input);
    var feedAbort := s.feedAbort || FeedTooOld(setup, lastOkMs, input.nowMs);
    var (model, d0) := Cascade(setup, feedAbort, s.model, input);
    var (lim, d1) := ApplyRateLimits(setup.rules, s.lim, d0, input.nowMs);
    var (e, d2) := ApplyExposureCap(setup.rules, setup.marketId, s.exposure, d1);
    State(feedAbort, lastOkMs, model, lim,
          if d2.cancelAll then e.Reset(setup.marketId) else e,
          s.rows + [Row(input.nowMs, d2)])
  }

  function Run(setup: Setup, inputs: seq<Input>): State {
    if inputs == [] then Start()
    else Step(setup, Run(setup, inputs[..|inputs| - 1]), inputs[|inputs| - 1])
  }

  /** The runner, with its limiters, tracker and strategy as separate objects. */
  class ShadowRunner {
    const setup: Setup
    const strategy: StaleEdgeStrategy
    const orderLimiter: RateLimiter
    const cancelLimiter: RateLimiter
    const exposure: ExposureTracker
    var feedAbort: bool
    var lastOfficialOkMs: Option<int>
    var rows: seq<Row>
    ghost var asked: seq<int>
    ghost var cancelsAsked: seq<int>

    ghost predicate Valid()
      reads this, strategy, strategy.model
    {
      && strategy.Valid() && strategy.rules == setup.rules
      && orderLimiter != cancelLimiter
      && orderLimiter.maxPerMin == setup.rules.maxOrdersPerMin
      && cancelLimiter.maxPerMin == setup.rules.maxCancelReplacePerMin
    }

    /** The runner is in state `s`, up to zero entries in the exposure dictionary. */
    ghost predicate IsIn(s: State)
      reads this, strategy, strategy.model, orderLimiter, cancelLimiter, exposure
    {
      && s.feedAbort == feedAbort && s.lastOkMs == lastOfficialOkMs && s.model == strategy.model.View()
      && s.lim == LimitsView() && Alike(exposure.View(), s.exposure) && s.rows == rows
    }

    ghost function LimitsView(): Limits
      reads this, orderLimiter, cancelLimiter
    {
      Limits(orderLimiter.timestamps, cancelLimiter.timestamps, asked, cancelsAsked)
    }

    constructor (setup: Setup)
      ensures Valid() && IsIn(Start()) && this.setup == setup
      ensures fresh(strategy) && fresh(strategy.model) && fresh(orderLimiter) && fresh(cancelLimiter) && fresh(exposure)
    {
      this.setup := setup;
      strategy := new StaleEdgeStrategy(setup.rules);
      orderLimiter := new RateLimiter(setup.rules.maxOrdersPerMin);
      cancelLimiter := new RateLimiter(setup.rules.maxCancelReplacePerMin);
      exposure := new ExposureTracker();
      feedAbort, lastOfficialOkMs, rows, asked, cancelsAsked := false, None, [], [], [];
    }

    method RateLimited(d: Decision, now: int) returns (d': Decision)
      requires Valid()
      modifies `asked, `cancelsAsked, orderLimiter, cancelLimiter
      ensures Valid() && (LimitsView(), d') == ApplyRateLimits(setup.rules, old(LimitsView()), d, now)
    {
      if d.action == PlaceOrder {
        var ok := orderLimiter.Allow(now);
        asked := asked + [now];
        if !ok {
          return Refuse(RateLimit, d.quotes);
        }
      }
      if d.cancelAll {
        var ok := cancelLimiter.Allow(now);
        cancelsAsked := cancelsAsked + [now];
        if !ok {
          return Refuse(CancelRateLimit, d.quotes);
        }
      }
      return d;
    }

    method ExposureCapped(d: Decision, ghost e: Exposure) returns (d': Decision)
      requires Valid() && Alike(exposure.View(), e)
      modifies exposure
      ensures Valid() && Alike(exposure.View(), ApplyExposureCap(setup.rules, setup.marketId, e, d).0)
      ensures d' == ApplyExposureCap(setup.rules, setup.marketId, e, d).1
    {
      if d.action != PlaceOrder || d.size.None? {
        return d;
      }
      AlikeAnswers(exposure.View(), e, setup.marketId, d.size.value, setup.rules);
      var ok := exposure.CanAdd(setup.marketId, d.size.value, setup.rules);
      if !ok {
        AlikeTrans(exposure.View(), old(exposure.View()), e);
        return Refuse(ExposureCap, d.quotes);
      }
      ghost var checked := exposure.View();
      AlikeTrans(checked, old(exposure.View()), e);
      AlikeAnswers(checked, e, setup.marketId, d.size.value, setup.rules);
      exposure.Add(setup.marketId, d.size.value);
      AlikeTrans(exposure.View(), checked.Add(setup.marketId, d.size.value), e.Add(setup.marketId, d.size.value));
      return d;
    }

    method Decided(input: Input, ghost m: Model) returns (d: Decision)
      requires Valid() && m == strategy.model.View()
      modifies strategy.model
      ensures Valid() && (strategy.model.View(), d) == Cascade(setup, feedAbort, m, input)
    {
      if !setup.sourceKnown {
        return Refuse(ResolutionSourceUnknown, NO_QUOTES);
      }
      if feedAbort {
        return Refuse(FeedStaleAbort, NO_QUOTES);
      }
      if input.book.None? {
        return Refuse(BookDataMissing, NO_QUOTES);
      }
      var feed := FeedSeen(setup, input);
      d := strategy.Evaluate(
        if feed.Some? then Some(feed.value.0) else None, if feed.Some? then Some(feed.value.1) else None,
        input.book.value, setup.marketEndMs, input.nowMs);
    }

    /** The time of the last answer, and the abort latch. */
    method NoteFeed(input: Input)
      modifies `lastOfficialOkMs, `feedAbort
      ensures lastOfficialOkMs == LastOk(setup, old(lastOfficialOkMs), input)
      ensures feedAbort == (old(feedAbort) || FeedTooOld(setup, lastOfficialOkMs, input.nowMs))
    {
      if FeedSeen(setup, input).Some? {
        lastOfficialOkMs := Some(input.nowMs);
      }
      if lastOfficialOkMs.Some? {
        if input.nowMs - lastOfficialOkMs.value > setup.rules.feedStaleAbortSec * 1000 {
          feedAbort := true;
        }
      } else if input.nowMs - setup.startMs > setup.rules.feedStaleAbortSec * 1000 {
        feedAbort := true;
      }
    }

    /** One iteration. */
    method Iterate(input: Input, ghost s: State)
      requires Valid() && IsIn(s)
      modifies this, strategy.model, orderLimiter, cancelLimiter, exposure
      ensures Valid() && IsIn(Step(setup, s, input))
    {
      NoteFeed(input);
      var d := Decided(input, s.model);
      d := RateLimited(d, input.nowMs);
      ghost var e := ApplyExposureCap(setup.rules, setup.marketId, s.exposure, d).0;
      d := ExposureCapped(d, s.exposure);
      if d.cancelAll {
        ghost var capped := exposure.View();
        AlikeAnswers(capped, e, setup.marketId, 0.0, setup.rules);
        exposure.ResetMarket(setup.marketId);
        AlikeTrans(exposure.View(), capped.Reset(setup.marketId), e.Reset(setup.marketId));
      }
      rows := rows + [Row(input.nowMs, d)];
    }

    /** The main loop, from a fresh runner, over the iterations of a run. */
    method Loop(inputs: seq<Input>)
      requires Valid() && IsIn(Start())
      modifies this, strategy.model, orderLimiter, cancelLimiter, exposure
      ensures Valid() && IsIn(Run(setup, inputs))
    {
      for i := 0 to |inputs|
        invariant Valid() && IsIn(Run(setup, inputs[..i]))
      {
        assert inputs[..i + 1][..i] == inputs[..i];
        Iterate(inputs[i], Run(setup, inputs[..i]));
      }
      assert inputs[..|inputs|] == inputs;
    }
  }

  ghost predicate ClockForward(inputs: seq<Input>) {
    forall i, j :: 0 <= i <= j < |inputs| ==> inputs[i].nowMs <= inputs[j].nowMs
  }

  // ----- exposure -----

  function Orders(rows: seq<Row>): (n: nat)
    ensures n <= |rows|
  {
    if rows == [] then 0
    else Orders(rows[..|rows| - 1]) + (if rows[|rows| - 1].decision.action == PlaceOrder then 1 else 0)
  }

  /** A cascade that orders asks for the minimum size, before the market's end, and not to cancel. */
  lemma CascadeOrders(setup: Setup, feedAbort: bool, m: Model, input: Input)
    ensures var d := Cascade(setup, feedAbort, m, input).1;
            d.action == PlaceOrder ==>
              !feedAbort && setup.sourceKnown && input.nowMs < setup.marketEndMs && !d.cancelAll
              && d.size == Some(setup.rules.minTradeUsd)
    ensures Cascade(setup, feedAbort, m, input).1.cancelAll ==> input.nowMs >= setup.marketEndMs
  {
    var d := Cascade(setup, feedAbort, m, input).1;
    if setup.sourceKnown && !feedAbort && input.book.Some? && input.nowMs < setup.marketEndMs {
      var feed := FeedSeen(setup, input);
      if feed.Some? {
        var m' := UpdateModel(m, setup.rules.modelHorizonSec * 1000, MAX_RETURNS, Sample(feed.value.1, feed.value.0));
        var fair := UpProb(m', setup.rules.modelWarmupSamples);
        if fair.Some? {
          OrderIff(setup.rules, fair.value, input.book.value, Yes);
          OrderIff(setup.rules, fair.value, input.book.value, No);
        }
      }
    }
  }

  function Spent(setup: Setup, n: nat): real {
    n as real * setup.rules.minTradeUsd
  }

  predicate WithinCaps(setup: Setup, amount: real) {
    amount <= setup.rules.maxExposureTotal && amount <= setup.rules.maxExposurePerMarket
  }

  /** Before the market's end the tracker holds exactly what the orders so far cost; the orders
      never cost more than either cap. */
  ghost predicate Budget(setup: Setup, s: State, lastNow: int) {
    var n := Orders(s.rows);
    && (lastNow < setup.marketEndMs ==>
          s.exposure.total == Spent(setup, n) && s.exposure.Of(setup.marketId) == Spent(setup, n))
    && (n == 0 || WithinCaps(setup, Spent(setup, n)))
  }

  lemma RowsPush(rows: seq<Row>, row: Row)
    ensures Orders(rows + [row]) == Orders(rows) + (if row.decision.action == PlaceOrder then 1 else 0)
  {
    assert (rows + [row])[..|rows|] == rows;
  }

  /** The decision of the iteration, and whether the order limiter let it pass. */
  function Wanted(setup: Setup, s: State, input: Input): Decision {
    var feedAbort := s.feedAbort || FeedTooOld(setup, LastOk(setup, s.lastOkMs, input), input.nowMs);
    Cascade(setup, feedAbort, s.model, input).1
  }

  function LimiterPasses(setup: Setup, s: State, input: Input): bool {
    Admit(s.lim.orderStamps, setup.rules.maxOrdersPerMin, input.nowMs).1
  }

  /** An order is journalled exactly when the strategy wants one, the limiter passes it and the
      cost of one more order still fits both caps. */
  predicate Places(setup: Setup, s: State, input: Input) {
    && Wanted(setup, s, input).action == PlaceOrder
    && LimiterPasses(setup, s, input)
    && s.exposure.CanAdd(setup.marketId, setup.rules.minTradeUsd, setup.rules)
  }

  /** What an iteration does to the journal and to the exposure. */
  ghost predicate Journalled(setup: Setup, s: State, s': State, now: int, placed: bool) {
    && |s'.rows| == |s.rows| + 1 && s'.rows == s.rows + [s'.rows[|s.rows|]]
    && s'.rows[|s.rows|].now == now
    && (s'.rows[|s.rows|].decision.action == PlaceOrder <==> placed)
    && (placed ==> now < setup.marketEndMs
                   && s.exposure.CanAdd(setup.marketId, setup.rules.minTradeUsd, setup.rules)
                   && s'.exposure == s.exposure.Add(setup.marketId, setup.rules.minTradeUsd))
    && (!placed ==>
          || s'.exposure == s.exposure
          || (&& s'.rows[|s.rows|].decision.cancelAll && now >= setup.marketEndMs
              && s'.exposure == s.exposure.Reset(setup.marketId)))
  }

  lemma StepOrders(setup: Setup, s: State, input: Input)
    ensures Journalled(setup, s, Step(setup, s, input), input.nowMs, Places(setup, s, input))
  {
    var feedAbort := s.feedAbort || FeedTooOld(setup, LastOk(setup, s.lastOkMs, input), input.nowMs);
    CascadeOrders(setup, feedAbort, s.model, input);
  }

  lemma BudgetNext(setup: Setup, s: State, s': State, lastNow: int, now: int, placed: bool)
    requires Budget(setup, s, lastNow) && lastNow <= now && Journalled(setup, s, s', now, placed)
    ensures Budget(setup, s', now)
  {
    RowsPush(s.rows, s'.rows[|s.rows|]);
    assert Spent(setup, Orders(s.rows) + 1) == Spent(setup, Orders(s.rows)) + setup.rules.minTradeUsd;
  }

  lemma {:induction false} RunBudget(setup: Setup, inputs: seq<Input>)
    requires ClockForward(inputs)
    ensures inputs == [] ==> Orders(Run(setup, inputs).rows) == 0
    ensures inputs != [] ==> Budget(setup, Run(setup, inputs), inputs[|inputs| - 1].nowMs)
  {
    if inputs != [] {
      var n := |inputs| - 1;
      var s, input := Run(setup, inputs[..n]), inputs[n];
      RunBudget(setup, inputs[..n]);
      StepOrders(setup, s, input);
      var last := if n == 0 then input.nowMs else inputs[n - 1].nowMs;
      BudgetNext(setup, s, Step(setup, s, input), last, input.nowMs, Places(setup, s, input));
    }
  }

  /** However long the run, all its orders together stay within both exposure caps. */
  lemma {:induction false} OrderBudget(setup: Setup, inputs: seq<Input>)
    requires ClockForward(inputs)
    ensures var n := Orders(Run(setup, inputs).rows);
            n > 0 ==> WithinCaps(setup, Spent(setup, n))
  {
    RunBudget(setup, inputs);
    if inputs != [] {
      WithinBudget(setup, Run(setup, inputs), inputs[|inputs| - 1].nowMs);
    }
  }

  lemma WithinBudget(setup: Setup, s: State, now: int)
    requires Budget(setup, s, now)
    ensures Orders(s.rows) > 0 ==> WithinCaps(setup, Spent(setup, Orders(s.rows)))
  {
  }
}
