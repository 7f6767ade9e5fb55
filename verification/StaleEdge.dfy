/** The stale-edge decision (strategies/stale_edge.py). The parameter hash that accompanies an
    order is not modelled. */
module StaleEdge {
  import opened Wrappers
  import opened RiskRules
  import opened ReturnModel

  datatype Outcome = Yes | No

  datatype BookTop = BookTop(
    yesBid: Option<real>, yesAsk: Option<real>, noBid: Option<real>, noAsk: Option<real>, tsMs: int)

  datatype Action = PlaceOrder | CancelReplace | NoTrade

  datatype Reason =
    | EndTimeAnomaly | TimeToEndCutoff | OfficialFeedMissing | StaleFeed | StaleBook
    | ModelWarmup | BookIncomplete | EdgeTooSmall | EdgeOk
    | RateLimit | CancelRateLimit | ExposureCap
    | ResolutionSourceUnknown | FeedStaleAbort | BookDataMissing

  datatype Quotes = Quotes(
    impliedYes: Option<real>, impliedNo: Option<real>, fairUpProb: Option<real>,
    edgeYes: Option<real>, edgeNo: Option<real>)

  const NO_QUOTES := Quotes(None, None, None, None, None)

  datatype Decision = Decision(
    action: Action, reason: Reason, side: Option<Outcome>, price: Option<real>, size: Option<real>,
    quotes: Quotes, cancelAll: bool)

  function Refuse(reason: Reason, quotes: Quotes): Decision {
    Decision(NoTrade, reason, None, None, None, quotes, false)
  }

  function EntryImplied(bid: Option<real>, ask: Option<real>): Option<real> {
    if ask.Some? then ask else bid
  }

  function Spread(bid: Option<real>, ask: Option<real>): Option<real> {
    if bid.Some? && ask.Some? then Some(if ask.value - bid.value > 0.0 then ask.value - bid.value else 0.0)
    else None
  }

  predicate SpreadOk(rules: Rules, bid: Option<real>, ask: Option<real>) {
    var spread := Spread(bid, ask);
    spread.Some? && spread.value <= rules.spreadMax
  }

  /** The choice between YES, NO and no trade, once a fair probability is known. */
  function Decide(rules: Rules, fair: real, book: BookTop): Decision {
    var impliedYes, impliedNo := EntryImplied(book.yesBid, book.yesAsk), EntryImplied(book.noBid, book.noAsk);
    if impliedYes.None? || impliedNo.None? then Refuse(BookIncomplete, NO_QUOTES)
    else
      var edgeYes := fair - impliedYes.value;
      var edgeNo := (1.0 - fair) - impliedNo.value;
      var quotes := Quotes(impliedYes, impliedNo, Some(fair), Some(edgeYes), Some(edgeNo));
      if edgeYes >= edgeNo && edgeYes > rules.EdgeMin() then
        if book.yesAsk.Some? && SpreadOk(rules, book.yesBid, book.yesAsk) then Order(rules, Yes, book.yesAsk, quotes)
        else Refuse(EdgeTooSmall, quotes)
      else if edgeNo > rules.EdgeMin() then
        if book.noAsk.Some? && SpreadOk(rules, book.noBid, book.noAsk) then Order(rules, No, book.noAsk, quotes)
        else Refuse(EdgeTooSmall, quotes)
      else Refuse(EdgeTooSmall, quotes)
  }

  function Order(rules: Rules, side: Outcome, price: Option<real>, quotes: Quotes): Decision {
    Decision(PlaceOrder, EdgeOk, Some(side), price, Some(rules.minTradeUsd), quotes, false)
  }

  /** The whole cascade: the model only sees samples that pass the time and staleness gates. */
  function Judge(rules: Rules, m: Model, mid: Option<real>, midTs: Option<int>, book: BookTop, endMs: int, now: int)
    : (Model, Decision)
  {
    if now >= endMs then
      (m, Decision(CancelReplace, EndTimeAnomaly, None, None, None, NO_QUOTES, true))
    else if endMs - now < rules.timeToEndCutoffSec * 1000 then (m, Refuse(TimeToEndCutoff, NO_QUOTES))
    else if mid.None? || midTs.None? then (m, Refuse(OfficialFeedMissing, NO_QUOTES))
    else if now - midTs.value > rules.officialStaleSec * 1000 then (m, Refuse(StaleFeed, NO_QUOTES))
    else if now - book.tsMs > rules.bookStaleSec * 1000 then (m, Refuse(StaleBook, NO_QUOTES))
    else
      var m' := UpdateModel(m, rules.modelHorizonSec * 1000, MAX_RETURNS, Sample(midTs.value, mid.value));
      match UpProb(m', rules.modelWarmupSamples)
      case None => (m', Refuse(ModelWarmup, NO_QUOTES))
      case Some(fair) => (m', Decide(rules, fair, book))
  }

  const MAX_RETURNS: nat := 1000

  // ----- the gates -----

  /** Every gate is passed: the market has more than the cutoff to run, the official price is there
      and fresh, and so is the book. */
  predicate GatesPassed(rules: Rules, mid: Option<real>, midTs: Option<int>, book: BookTop, endMs: int, now: int) {
    && now < endMs && endMs - now >= rules.timeToEndCutoffSec * 1000
    && mid.Some? && midTs.Some?
    && now - midTs.value <= rules.officialStaleSec * 1000
    && now - book.tsMs <= rules.bookStaleSec * 1000
  }

  /** Which gate stopped a decision, and that only a decision that passed all of them updates the
      model, with the official price, and may be an order. */
  ghost predicate Gated(
      rules: Rules, before: Model, after: Model, mid: Option<real>, midTs: Option<int>, book: BookTop,
      endMs: int, now: int, d: Decision)
  {
    var inTime := now < endMs && endMs - now >= rules.timeToEndCutoffSec * 1000;
    var quoted := inTime && mid.Some? && midTs.Some?;
    && (d.reason == EndTimeAnomaly <==> now >= endMs)
    && (d.reason == TimeToEndCutoff <==> now < endMs && endMs - now < rules.timeToEndCutoffSec * 1000)
    && (d.reason == OfficialFeedMissing <==> inTime && (mid.None? || midTs.None?))
    && (d.reason == StaleFeed <==> quoted && now - midTs.value > rules.officialStaleSec * 1000)
    && (d.reason == StaleBook <==>
          && quoted && now - midTs.value <= rules.officialStaleSec * 1000
          && now - book.tsMs > rules.bookStaleSec * 1000)
    && (d.action == CancelReplace <==> now >= endMs) && (d.cancelAll <==> now >= endMs)
    && (if GatesPassed(rules, mid, midTs, book, endMs, now) then
          && after == UpdateModel(before, rules.modelHorizonSec * 1000, 1000, Sample(midTs.value, mid.value))
          && (d.reason == ModelWarmup <==> UpProb(after, rules.modelWarmupSamples) == None)
          && d.reason in {ModelWarmup, BookIncomplete, EdgeTooSmall, EdgeOk}
        else after == before && d.price == None && d.size == None && d.side == None)
    && (d.action == PlaceOrder <==> d.reason == EdgeOk)
    && (d.action == PlaceOrder ==> d.quotes.fairUpProb.Some?
                                   && d.quotes.fairUpProb == UpProb(after, rules.modelWarmupSamples))
  }

  lemma DecideReasons(rules: Rules, fair: real, book: BookTop)
    ensures var d := Decide(rules, fair, book);
            && d.reason in {BookIncomplete, EdgeTooSmall, EdgeOk} && !d.cancelAll && d.action != CancelReplace
            && (d.action == PlaceOrder <==> d.reason == EdgeOk)
            && (d.action == PlaceOrder ==> d.quotes.fairUpProb == Some(fair))
  {
  }

  lemma JudgeGated(
      rules: Rules, m: Model, mid: Option<real>, midTs: Option<int>, book: BookTop, endMs: int, now: int)
    ensures var (after, d) := Judge(rules, m, mid, midTs, book, endMs, now);
            Gated(rules, m, after, mid, midTs, book, endMs, now, d)
  {
    if GatesPassed(rules, mid, midTs, book, endMs, now) {
      var after := UpdateModel(m, rules.modelHorizonSec * 1000, MAX_RETURNS, Sample(midTs.value, mid.value));
      var fair := UpProb(after, rules.modelWarmupSamples);
      if fair.Some? {
        DecideReasons(rules, fair.value, book);
      }
    }
  }

  /** The model changes exactly when every gate is passed. */
  lemma {:induction false} ModelChangesIff(
      rules: Rules, m: Model, mid: Option<real>, midTs: Option<int>, book: BookTop, endMs: int, now: int)
    requires rules.modelHorizonSec >= 0
    ensures Judge(rules, m, mid, midTs, book, endMs, now).0 != m <==> GatesPassed(rules, mid, midTs, book, endMs, now)
  {
    JudgeGated(rules, m, mid, midTs, book, endMs, now);
    if GatesPassed(rules, mid, midTs, book, endMs, now) {
      UpdateChanges(m, rules.modelHorizonSec * 1000, MAX_RETURNS, Sample(midTs.value, mid.value));
    }
  }

  class StaleEdgeStrategy {
    const rules: Rules
    const model: RollingReturnModel

    ghost predicate Valid()
      reads this, model
    {
      && model.horizonMs == rules.modelHorizonSec * 1000
      && model.warmupSamples == rules.modelWarmupSamples
      && model.maxReturns == MAX_RETURNS
      && |model.gains| <= MAX_RETURNS
    }

    constructor (rules: Rules)
      ensures Valid() && fresh(model) && model.View() == Model([], []) && this.rules == rules
    {
      this.rules := rules;
      this.model := new RollingReturnModel(rules.modelHorizonSec, rules.modelWarmupSamples, MAX_RETURNS);
    }

    method Evaluate(mid: Option<real>, midTs: Option<int>, book: BookTop, endMs: int, now: int)
      returns (d: Decision)
      requires Valid()
      modifies model
      ensures Valid()
      ensures (model.View(), d) == Judge(rules, old(model.View()), mid, midTs, book, endMs, now)
      ensures Gated(rules, old(model.View()), model.View(), mid, midTs, book, endMs, now, d)
    {
      JudgeGated(rules, model.View(), mid, midTs, book, endMs, now);
      if now >= endMs {
        return Decision(CancelReplace, EndTimeAnomaly, None, None, None, NO_QUOTES, true);
      }
      if endMs - now < rules.timeToEndCutoffSec * 1000 {
        return Refuse(TimeToEndCutoff, NO_QUOTES);
      }
      if mid.None? || midTs.None? {
        return Refuse(OfficialFeedMissing, NO_QUOTES);
      }
      if now - midTs.value > rules.officialStaleSec * 1000 {
        return Refuse(StaleFeed, NO_QUOTES);
      }
      if now - book.tsMs > rules.bookStaleSec * 1000 {
        return Refuse(StaleBook, NO_QUOTES);
      }
      model.Update(midTs.value, mid.value);
      var fair := model.FairUpProb();
      if fair.None? {
        return Refuse(ModelWarmup, NO_QUOTES);
      }
      return Decide(rules, fair.value, book);
    }
  }

  // ----- what an order means -----

  function Ask(book: BookTop, side: Outcome): Option<real> {
    if side == Yes then book.yesAsk else book.noAsk
  }

  function Bid(book: BookTop, side: Outcome): Option<real> {
    if side == Yes then book.yesBid else book.noBid
  }

  function Other(side: Outcome): Outcome {
    if side == Yes then No else Yes
  }

  /** The probability of an outcome over the price at which it can be entered. */
  function Edge(fair: real, book: BookTop, side: Outcome): Option<real> {
    match EntryImplied(Bid(book, side), Ask(book, side))
    case None => None
    case Some(implied) => Some((if side == Yes then fair else 1.0 - fair) - implied)
  }

  /** `side` has the larger edge, ties going to YES. */
  predicate Favoured(fair: real, book: BookTop, side: Outcome) {
    var mine, others := Edge(fair, book, side), Edge(fair, book, Other(side));
    mine.Some? && others.Some? && (if side == Yes then mine.value >= others.value else mine.value > others.value)
  }

  /** An order for `side` goes out exactly when both outcomes are quoted, `side` is the favoured
      one, its edge clears the minimum, and it is quoted two-sided with an acceptable spread. In
      particular a wide favourite is never replaced by the other outcome. */
  lemma OrderIff(rules: Rules, fair: real, book: BookTop, side: Outcome)
    ensures Decide(rules, fair, book).action == PlaceOrder && Decide(rules, fair, book).side == Some(side)
            <==> && Favoured(fair, book, side)
                 && Edge(fair, book, side).value > rules.feesEst + rules.spreadBuffer + rules.modelErrorTax
                 && Ask(book, side).Some? && Bid(book, side).Some?
                 && Ask(book, side).value - Bid(book, side).value <= rules.spreadMax && 0.0 <= rules.spreadMax
    ensures var d := Decide(rules, fair, book);
            d.action == PlaceOrder && d.side == Some(side) ==>
              d.price == Ask(book, side) && d.size == Some(rules.minTradeUsd)
              && (if side == Yes then fair else 1.0 - fair)
                 > Ask(book, side).value + rules.feesEst + rules.spreadBuffer + rules.modelErrorTax
    ensures !Decide(rules, fair, book).cancelAll
    ensures Decide(rules, fair, book).action == PlaceOrder ==> Decide(rules, fair, book).side.Some?
  {
  }

  /** What a decision reports: an unquoted outcome is an incomplete book, and otherwise the edges
      are reported, whether or not they led to an order. */
  lemma DecisionReports(rules: Rules, fair: real, book: BookTop)
    ensures var d, yes, no := Decide(rules, fair, book), Edge(fair, book, Yes), Edge(fair, book, No);
            if yes.None? || no.None? then d == Refuse(BookIncomplete, NO_QUOTES)
            else
              && d.quotes.fairUpProb == Some(fair) && d.quotes.edgeYes == yes && d.quotes.edgeNo == no
              && d.quotes.impliedYes == (if book.yesAsk.Some? then book.yesAsk else book.yesBid)
              && d.quotes.impliedNo == (if book.noAsk.Some? then book.noAsk else book.noBid)
              && d.quotes.impliedYes.Some? && d.quotes.impliedYes.value + yes.value == fair
              && d.quotes.impliedNo.Some? && d.quotes.impliedNo.value + no.value == 1.0 - fair
              && d.reason == (if d.action == PlaceOrder then EdgeOk else EdgeTooSmall)
              && d.action != CancelReplace
  {
  }

  function Mirror(book: BookTop): BookTop {
    BookTop(book.noBid, book.noAsk, book.yesBid, book.yesAsk, book.tsMs)
  }

  /** Relabelling the outcomes relabels the order, unless the two edges tie. */
  lemma MirrorSymmetry(rules: Rules, fair: real, book: BookTop)
    requires Edge(fair, book, Yes) != Edge(fair, book, No)
    ensures var d, d' := Decide(rules, fair, book), Decide(rules, 1.0 - fair, Mirror(book));
            && d.action == d'.action && d.reason == d'.reason && d.price == d'.price
            && (d.side.Some? <==> d'.side.Some?)
            && (d.side.Some? ==> d'.side.value == Other(d.side.value))
  {
  }
}
