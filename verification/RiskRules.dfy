/** Risk parameters and exposure accounting of the shadow strategy (risk/rules.py). */
module RiskRules {

  datatype Rules = Rules(
    maxExposureTotal: real, maxExposurePerMarket: real, minTradeUsd: real,
    maxOrdersPerMin: int, maxCancelReplacePerMin: int,
    timeToEndCutoffSec: int, officialStaleSec: int, bookStaleSec: int, feedStaleAbortSec: int,
    spreadMax: real, feesEst: real, spreadBuffer: real, modelErrorTax: real,
    modelHorizonSec: int, modelWarmupSamples: int)
  {
    function EdgeMin(): real {
      feesEst + spreadBuffer + modelErrorTax
    }
  }

  /** The tracker's figures: the total, and each market's share (zero when absent). */
  datatype Exposure = Exposure(total: real, byMarket: map<string, real>) {
    function Of(market: string): real {
      if market in byMarket then byMarket[market] else 0.0
    }

    predicate CanAdd(market: string, notional: real, rules: Rules) {
      && total + notional <= rules.maxExposureTotal
      && Of(market) + notional <= rules.maxExposurePerMarket
    }

    function Add(market: string, notional: real): Exposure {
      Exposure(total + notional, byMarket[market := Of(market) + notional])
    }

    function Reset(market: string): Exposure {
      Exposure(total - Of(market), byMarket[market := 0.0])
    }
  }

  const NO_EXPOSURE := Exposure(0.0, map[])

  /** Two trackers that answer every question alike; reading a market may add a zero entry. */
  ghost predicate Alike(a: Exposure, b: Exposure) {
    a.total == b.total && forall m :: a.Of(m) == b.Of(m)
  }

  lemma AlikeAnswers(a: Exposure, b: Exposure, market: string, notional: real, rules: Rules)
    requires Alike(a, b)
    ensures a.CanAdd(market, notional, rules) == b.CanAdd(market, notional, rules)
    ensures Alike(a.Add(market, notional), b.Add(market, notional))
    ensures Alike(a.Reset(market), b.Reset(market))
  {
    assert a.Of(market) == b.Of(market);
    forall m
      ensures a.Add(market, notional).Of(m) == b.Add(market, notional).Of(m)
      ensures a.Reset(market).Of(m) == b.Reset(market).Of(m)
    {
      assert a.Of(m) == b.Of(m);
    }
  }

  /** An order is allowed exactly when neither cap would be exceeded, and meeting one is allowed; adding it
      and resetting its market change just the figures they should. */
  lemma ExposureIs(e: Exposure, market: string, notional: real, rules: Rules)
    ensures e.CanAdd(market, notional, rules) <==>
            e.total + notional <= rules.maxExposureTotal && e.Of(market) + notional <= rules.maxExposurePerMarket
    ensures e.Add(market, notional).total == e.total + notional
    ensures forall m :: e.Add(market, notional).Of(m) == e.Of(m) + (if m == market then notional else 0.0)
    ensures e.Reset(market).total == e.total - e.Of(market)
    ensures forall m :: e.Reset(market).Of(m) == if m == market then 0.0 else e.Of(m)
  {
  }

  lemma AlikeTrans(a: Exposure, b: Exposure, c: Exposure)
    requires Alike(a, b) && Alike(b, c)
    ensures Alike(a, c)
  {
    forall m ensures a.Of(m) == c.Of(m) {
      assert a.Of(m) == b.Of(m);
    }
  }

  class ExposureTracker {
    var totalExposure: real
    var marketExposure: map<string, real>

    function View(): Exposure
      reads this
    {
      Exposure(totalExposure, marketExposure)
    }

    constructor ()
      ensures View() == NO_EXPOSURE
    {
      totalExposure, marketExposure := 0.0, map[];
    }

    /** Looking a market up in the defaulting dictionary creates its zero entry. */
    method Lookup(marketId: string) returns (exposure: real)
      modifies this
      ensures exposure == old(View()).Of(marketId) && Alike(View(), old(View()))
    {
      if marketId !in marketExposure {
        marketExposure := marketExposure[marketId := 0.0];
      }
      exposure := marketExposure[marketId];
    }

    method CanAdd(marketId: string, notional: real, rules: Rules) returns (ok: bool)
      modifies this
      ensures ok == old(View()).CanAdd(marketId, notional, rules) && Alike(View(), old(View()))
      ensures ok <==> old(totalExposure) + notional <= rules.maxExposureTotal
                      && old(View()).Of(marketId) + notional <= rules.maxExposurePerMarket
    {
      if totalExposure + notional > rules.maxExposureTotal {
        return false;
      }
      var market := Lookup(marketId);
      if market + notional > rules.maxExposurePerMarket {
        return false;
      }
      return true;
    }

    method Add(marketId: string, notional: real)
      modifies this
      ensures Alike(View(), old(View()).Add(marketId, notional))
    {
      totalExposure := totalExposure + notional;
      var market := Lookup(marketId);
      ghost var looked := View();
      assert forall m :: looked.Of(m) == old(View()).Of(m);
      marketExposure := marketExposure[marketId := market + notional];
      assert forall m :: View().Of(m) == if m == marketId then market + notional else looked.Of(m);
    }

    method ResetMarket(marketId: string)
      modifies this
      ensures Alike(View(), old(View()).Reset(marketId))
    {
      totalExposure := totalExposure - View().Of(marketId);
      marketExposure := marketExposure[marketId := 0.0];
    }
  }
}
