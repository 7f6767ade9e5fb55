/** Why each row of a shadow run says what it says: every reason in terms of the input, the clock, the
    rules and the limiters; and which prices the fair probability of an order comes from. */
module ShadowGates {
  import opened Wrappers
  import opened RiskRules
  import opened RateLimiting
  import opened ReturnModel
  import opened StaleEdge
  import opened ShadowRun
  import opened ShadowLaws

  // ----- one iteration -----

  /** The official price of an iteration: none for an unknown source or a forced failure. */
  function Official(setup: Setup, input: Input): Option<(real, int)> {
    if setup.sourceKnown && !setup.forceFeedFailure then input.feed else None
  }

  /** The strategy is asked: the source is known, the feed was not given up, and there is a book. */
  predicate Asks(setup: Setup, aborted: bool, input: Input) {
    setup.sourceKnown && !aborted && input.book.Some?
  }

  predicate InTime(setup: Setup, input: Input) {
    input.nowMs < setup.marketEndMs && setup.marketEndMs - input.nowMs >= setup.rules.timeToEndCutoffSec * 1000
  }

  predicate PriceFresh(setup: Setup, input: Input) {
    var feed := Official(setup, input);
    feed.Some? && input.nowMs - feed.value.1 <= setup.rules.officialStaleSec * 1000
  }

  predicate BookFresh(setup: Setup, input: Input) {
    input.book.Some? && input.nowMs - input.book.value.tsMs <= setup.rules.bookStaleSec * 1000
  }

  /** Fewer than `max` of the remembered calls are within the last minute. */
  predicate HasRoom(stamps: seq<int>, max: int, nowMs: int) {
    |Evict(stamps, nowMs - 60_000)| < max
  }

  /** One more trade stays within both caps; meeting a cap exactly is allowed. */
  predicate Affordable(setup: Setup, e: Exposure) {
    && e.total + setup.rules.minTradeUsd <= setup.rules.maxExposureTotal
    && e.Of(setup.marketId) + setup.rules.minTradeUsd <= setup.rules.maxExposurePerMarket
  }

  /** The reason of a row of state `s` at `input`, when `aborted` tells whether the feed was given up
      and `d0` is what the strategy wanted. */
  ghost predicate ReasonIs(setup: Setup, s: State, input: Input, aborted: bool, d0: Decision, d: Decision) {
    var rules, now := setup.rules, input.nowMs;
    var asks, inTime := Asks(setup, aborted, input), InTime(setup, input);
    && (d.reason == ResolutionSourceUnknown <==> !setup.sourceKnown)
    && (d.reason == FeedStaleAbort <==> setup.sourceKnown && aborted)
    && (d.reason == BookDataMissing <==> setup.sourceKnown && !aborted && input.book.None?)
    && (d.reason == EndTimeAnomaly <==>
          asks && now >= setup.marketEndMs && HasRoom(s.lim.cancelStamps, rules.maxCancelReplacePerMin, now))
    && (d.reason == CancelRateLimit <==>
          asks && now >= setup.marketEndMs && !HasRoom(s.lim.cancelStamps, rules.maxCancelReplacePerMin, now))
    && (d.reason == TimeToEndCutoff <==> asks && now < setup.marketEndMs && !inTime)
    && (d.reason == OfficialFeedMissing <==> asks && inTime && Official(setup, input).None?)
    && (d.reason == StaleFeed <==> asks && inTime && Official(setup, input).Some? && !PriceFresh(setup, input))
    && (d.reason == StaleBook <==> asks && inTime && PriceFresh(setup, input) && !BookFresh(setup, input))
    && (d.reason == RateLimit <==> d0.reason == EdgeOk && !HasRoom(s.lim.orderStamps, rules.maxOrdersPerMin, now))
    && (d.reason == ExposureCap <==>
          d0.reason == EdgeOk && HasRoom(s.lim.orderStamps, rules.maxOrdersPerMin, now) && !Affordable(setup, s.exposure))
    && (d.reason == EdgeOk <==>
          d0.reason == EdgeOk && HasRoom(s.lim.orderStamps, rules.maxOrdersPerMin, now) && Affordable(setup, s.exposure))
    && (d.action == PlaceOrder <==> d.reason == EdgeOk) && (d.action == PlaceOrder ==> d == d0)
    && (d0.reason == EdgeOk ==> asks && inTime && PriceFresh(setup, input) && BookFresh(setup, input))
  }

  /** What the cascade says, gate by gate, and what it does to the model. */
  ghost predicate CascadeIs(setup: Setup, aborted: bool, before: Model, after: Model, input: Input, d0: Decision) {
    var asks, inTime := Asks(setup, aborted, input), InTime(setup, input);
    && (d0.reason == ResolutionSourceUnknown <==> !setup.sourceKnown)
    && (d0.reason == FeedStaleAbort <==> setup.sourceKnown && aborted)
    && (d0.reason == BookDataMissing <==> setup.sourceKnown && !aborted && input.book.None?)
    && (d0.reason == EndTimeAnomaly <==> asks && input.nowMs >= setup.marketEndMs)
    && (d0.reason == TimeToEndCutoff <==> asks && input.nowMs < setup.marketEndMs && !inTime)
    && (d0.reason == OfficialFeedMissing <==> asks && inTime && Official(setup, input).None?)
    && (d0.reason == StaleFeed <==> asks && inTime && Official(setup, input).Some? && !PriceFresh(setup, input))
    && (d0.reason == StaleBook <==> asks && inTime && PriceFresh(setup, input) && !BookFresh(setup, input))
    && d0.reason !in {RateLimit, CancelRateLimit, ExposureCap}
    && (d0.action == PlaceOrder <==> d0.reason == EdgeOk)
    && (d0.cancelAll <==> d0.reason == EndTimeAnomaly) && (d0.action == PlaceOrder ==> !d0.cancelAll)
    && (if Samples(setup, aborted, input) then
          after == UpdateModel(before, setup.rules.modelHorizonSec * 1000, 1000, SampleOf(setup, input))
        else after == before && d0.reason != EdgeOk)
    && (d0.action == PlaceOrder ==>
          && d0.size == Some(setup.rules.minTradeUsd) && d0.quotes.fairUpProb.Some?
          && d0.quotes.fairUpProb == UpProb(after, setup.rules.modelWarmupSamples))
  }

  /** The iteration passes every gate, so its official price is sampled. */
  predicate Samples(setup: Setup, aborted: bool, input: Input) {
    Asks(setup, aborted, input) && InTime(setup, input) && PriceFresh(setup, input) && BookFresh(setup, input)
  }

  function SampleOf(setup: Setup, input: Input): Sample
    requires PriceFresh(setup, input)
  {
    Sample(Official(setup, input).value.1, Official(setup, input).value.0)
  }

  lemma CascadeGates(setup: Setup, aborted: bool, m: Model, input: Input)
    ensures var (after, d0) := Cascade(setup, aborted, m, input);
            CascadeIs(setup, aborted, m, after, input, d0)
  {
    CascadeOrders(setup, aborted, m, input);
    if Asks(setup, aborted, input) {
      var feed := FeedSeen(setup, input);
      var mid, midTs := if feed.Some? then Some(feed.value.0) else None, if feed.Some? then Some(feed.value.1) else None;
      JudgeGated(setup.rules, m, mid, midTs, input.book.value, setup.marketEndMs, input.nowMs);
    }
  }

  function AbortedBy(setup: Setup, s: State, input: Input): bool {
    s.feedAbort || FeedTooOld(setup, LastOk(setup, s.lastOkMs, input), input.nowMs)
  }

  lemma LimitReasons(setup: Setup, lim: Limits, d0: Decision, now: int)
    requires d0.reason !in {RateLimit, CancelRateLimit, ExposureCap}
    requires (d0.action == PlaceOrder <==> d0.reason == EdgeOk) && (d0.cancelAll <==> d0.reason == EndTimeAnomaly)
    ensures var d1 := ApplyRateLimits(setup.rules, lim, d0, now).1;
            if d0.reason == EdgeOk && !HasRoom(lim.orderStamps, setup.rules.maxOrdersPerMin, now) then
              d1 == Refuse(RateLimit, d0.quotes)
            else if d0.reason == EndTimeAnomaly && !HasRoom(lim.cancelStamps, setup.rules.maxCancelReplacePerMin, now) then
              d1 == Refuse(CancelRateLimit, d0.quotes)
            else d1 == d0
  {
  }

  lemma CapReasons(setup: Setup, e: Exposure, d1: Decision)
    requires d1.action == PlaceOrder ==> d1.size == Some(setup.rules.minTradeUsd)
    ensures var d2 := ApplyExposureCap(setup.rules, setup.marketId, e, d1).1;
            d2 == if d1.action == PlaceOrder && !Affordable(setup, e) then Refuse(ExposureCap, d1.quotes) else d1
  {
  }

  /** The decision an iteration journals. */
  function Journals(setup: Setup, s: State, input: Input): Decision {
    var d1 := ApplyRateLimits(setup.rules, s.lim, Wanted(setup, s, input), input.nowMs).1;
    ApplyExposureCap(setup.rules, setup.marketId, s.exposure, d1).1
  }

  lemma StepJournals(setup: Setup, s: State, input: Input)
    ensures var t := Step(setup, s, input);
            && t.rows == s.rows + [Row(input.nowMs, Journals(setup, s, input))]
            && t.feedAbort == AbortedBy(setup, s, input)
            && t.model == Cascade(setup, AbortedBy(setup, s, input), s.model, input).0
  {
  }

  /** Every reason of an iteration, exactly. */
  lemma {:induction false} RowReasons(setup: Setup, s: State, input: Input)
    ensures var t := Step(setup, s, input);
            && |t.rows| == |s.rows| + 1 && t.rows[|s.rows|].now == input.nowMs
            && ReasonIs(setup, s, input, t.feedAbort, Wanted(setup, s, input), t.rows[|s.rows|].decision)
  {
    var aborted, d0 := AbortedBy(setup, s, input), Wanted(setup, s, input);
    StepJournals(setup, s, input);
    CascadeGates(setup, aborted, s.model, input);
    LimitReasons(setup, s.lim, d0, input.nowMs);
    CapReasons(setup, s.exposure, ApplyRateLimits(setup.rules, s.lim, d0, input.nowMs).1);
  }

  /** What an iteration does to the exposure: an order adds its size to the total and its market, a cancel
      that goes through takes the market's share back, and nothing else changes it. */
  lemma {:induction false} RowExposure(setup: Setup, s: State, input: Input)
    ensures var t, market := Step(setup, s, input), setup.marketId;
            var d := Journals(setup, s, input);
            if d.reason == EdgeOk then
              && t.exposure.total == s.exposure.total + setup.rules.minTradeUsd
              && t.exposure.Of(market) == s.exposure.Of(market) + setup.rules.minTradeUsd
            else if d.reason == EndTimeAnomaly then
              t.exposure.total == s.exposure.total - s.exposure.Of(market) && t.exposure.Of(market) == 0.0
            else t.exposure == s.exposure
  {
    var d0 := Wanted(setup, s, input);
    StepJournals(setup, s, input);
    CascadeGates(setup, AbortedBy(setup, s, input), s.model, input);
    LimitReasons(setup, s.lim, d0, input.nowMs);
    CapReasons(setup, s.exposure, ApplyRateLimits(setup.rules, s.lim, d0, input.nowMs).1);
  }

  // ----- whole runs -----

  /** The official prices that passed every gate, in order. */
  function RunSamples(setup: Setup, inputs: seq<Input>): seq<Sample> {
    if inputs == [] then []
    else
      var past, input := RunSamples(setup, inputs[..|inputs| - 1]), inputs[|inputs| - 1];
      if Samples(setup, Run(setup, inputs).feedAbort, input) then past + [SampleOf(setup, input)] else past
  }

  /** The strategy's model has seen exactly those prices. */
  lemma {:induction false} RunModel(setup: Setup, inputs: seq<Input>)
    ensures Run(setup, inputs).model
            == ReturnModel.Replay(RunSamples(setup, inputs), setup.rules.modelHorizonSec * 1000, 1000)
  {
    if inputs != [] {
      var n := |inputs| - 1;
      var s, input := Run(setup, inputs[..n]), inputs[n];
      RunModel(setup, inputs[..n]);
      StepJournals(setup, s, input);
      CascadeGates(setup, AbortedBy(setup, s, input), s.model, input);
      if Samples(setup, Run(setup, inputs).feedAbort, input) {
        ReplayMore(RunSamples(setup, inputs[..n]), SampleOf(setup, input), setup.rules.modelHorizonSec * 1000);
      }
    }
  }

  lemma ReplayMore(h: seq<Sample>, s: Sample, horizonMs: int)
    ensures ReturnModel.Replay(h + [s], horizonMs, 1000)
            == UpdateModel(ReturnModel.Replay(h, horizonMs, 1000), horizonMs, 1000, s)
  {
    assert (h + [s])[..|h|] == h;
  }

  /** An order of a run, traced back to its iteration: the source is known and was answering, the market
      had more than the cutoff to run, the official price and the book were fresh; no earlier silence
      of the feed was too long; and its fair probability is that of the prices sampled so far. */
  ghost predicate OrderIsGated(setup: Setup, inputs: seq<Input>, k: nat, d: Decision) {
    k < |inputs| &&
    var rules, input, now := setup.rules, inputs[k], inputs[k].nowMs;
    && setup.sourceKnown && !setup.forceFeedFailure && input.feed.Some? && input.book.Some?
    && now < setup.marketEndMs && setup.marketEndMs - now >= rules.timeToEndCutoffSec * 1000
    && now - input.feed.value.1 <= rules.officialStaleSec * 1000
    && now - input.book.value.tsMs <= rules.bookStaleSec * 1000
    && (forall j: nat :: j <= k ==> !Silent(setup, inputs, j))
    && d.size == Some(rules.minTradeUsd) && d.reason == EdgeOk
    && d.quotes.fairUpProb == UpProb(ReturnModel.Replay(RunSamples(setup, inputs[..k + 1]), rules.modelHorizonSec * 1000, 1000),
                                     rules.modelWarmupSamples)
  }

  lemma LastOrder(setup: Setup, inputs: seq<Input>)
    requires inputs != [] && |Run(setup, inputs).rows| == |inputs|
    requires Run(setup, inputs).rows[|inputs| - 1].decision.action == PlaceOrder
    ensures !Run(setup, inputs).feedAbort
    ensures var d, input := Run(setup, inputs).rows[|inputs| - 1].decision, inputs[|inputs| - 1];
            && Samples(setup, false, input) && d.size == Some(setup.rules.minTradeUsd) && d.reason == EdgeOk
            && d.quotes.fairUpProb == UpProb(Run(setup, inputs).model, setup.rules.modelWarmupSamples)
  {
    var n := |inputs| - 1;
    var s, input := Run(setup, inputs[..n]), inputs[n];
    JournalLength(setup, inputs[..n]);
    RowReasons(setup, s, input);
    StepJournals(setup, s, input);
    CascadeGates(setup, AbortedBy(setup, s, input), s.model, input);
  }

  /** Every order of every run is gated. */
  lemma {:induction false} OrdersAreGated(setup: Setup, inputs: seq<Input>, k: nat)
    requires k < |Run(setup, inputs).rows|
    requires Run(setup, inputs).rows[k].decision.action == PlaceOrder
    ensures OrderIsGated(setup, inputs, k, Run(setup, inputs).rows[k].decision)
  {
    JournalLength(setup, inputs);
    var upTo := inputs[..k + 1];
    RowAt(setup, inputs, k);
    LastOrder(setup, upTo);
    RunModel(setup, upTo);
    NoSilence(setup, inputs, k);
  }

  /** An iteration that was not aborted comes after no over-long silence. */
  lemma NoSilence(setup: Setup, inputs: seq<Input>, k: nat)
    requires k < |inputs| && !Run(setup, inputs[..k + 1]).feedAbort
    ensures forall j: nat :: j <= k ==> !Silent(setup, inputs, j)
  {
    var upTo := inputs[..k + 1];
    AbortIffSilent(setup, upTo);
    forall j: nat | j <= k ensures !Silent(setup, inputs, j) {
      LastAnswerPrefix(setup, inputs, k + 1, j);
      assert !Silent(setup, upTo, j);
    }
  }

  /** With sample times that do not go back, the fair probability of an order is the fraction of rises
      over the full price history. */
  lemma {:induction false} OrderProbability(setup: Setup, inputs: seq<Input>, k: nat)
    requires k < |Run(setup, inputs).rows|
    requires Run(setup, inputs).rows[k].decision.action == PlaceOrder
    requires k < |inputs| ==> Ordered(RunSamples(setup, inputs[..k + 1]))
    ensures k < |inputs|
            && Run(setup, inputs).rows[k].decision.quotes.fairUpProb
            == FairUp(RunSamples(setup, inputs[..k + 1]), setup.rules.modelHorizonSec * 1000,
                      setup.rules.modelWarmupSamples, 1000)
  {
    OrdersAreGated(setup, inputs, k);
    ModelIsReference(RunSamples(setup, inputs[..k + 1]), setup.rules.modelHorizonSec * 1000,
                     setup.rules.modelWarmupSamples, 1000);
  }
}
