/** Risk caps and shadow execution (engine-rust/src/execution.rs). */
module Execution {
  import opened Wrappers
  import opened Sequences
  import opened Types

  const REFERENCE_PRICE := 100.0

  datatype RiskCaps = RiskCaps(maxExposure: real, maxSymbolExposure: real, maxOpenOrders: nat)

  /** The tracker's fields as a value. */
  datatype Exposure = Exposure(total: real, bySymbol: map<string, real>, openOrders: nat) {
    function Of(symbol: string): real {
      if symbol in bySymbol then bySymbol[symbol] else 0.0
    }
  }

  const NO_EXPOSURE := Exposure(0.0, map[], 0)

  function Notional(signal: Signal): real {
    signal.desiredSize * REFERENCE_PRICE
  }

  function CheckAndUpdate(e: Exposure, symbol: string, notional: real, caps: RiskCaps): Option<Exposure> {
    if e.total + notional > caps.maxExposure then None
    else if e.Of(symbol) + notional > caps.maxSymbolExposure then None
    else if e.openOrders >= caps.maxOpenOrders then None
    else Some(Exposure(e.total + notional,
                       e.bySymbol[symbol := e.Of(symbol) + notional],
                       e.openOrders + 1))
  }

  /** A signal passes exactly when none of the three caps would be exceeded; meeting one is allowed. Then
      its notional is added to the total and to its symbol, and one more order is open. */
  lemma AdmittedIff(e: Exposure, symbol: string, notional: real, caps: RiskCaps)
    ensures var r := CheckAndUpdate(e, symbol, notional, caps);
            && (r.Some? <==> && e.total + notional <= caps.maxExposure
                             && e.Of(symbol) + notional <= caps.maxSymbolExposure
                             && e.openOrders + 1 <= caps.maxOpenOrders)
            && (r.Some? ==> && r.value.total == e.total + notional && r.value.openOrders == e.openOrders + 1
                            && forall s :: r.value.Of(s) == e.Of(s) + (if s == symbol then notional else 0.0))
  {
  }

  function Release(e: Exposure, symbol: string, notional: real): Exposure {
    Exposure(e.total - notional,
             if symbol in e.bySymbol then e.bySymbol[symbol := e.bySymbol[symbol] - notional] else e.bySymbol,
             if e.openOrders > 0 then e.openOrders - 1 else 0)
  }

  class ExposureTracker {
    var totalExposure: real
    var symbolExposure: map<string, real>
    var openOrders: nat

    function View(): Exposure
      reads this
    {
      Exposure(totalExposure, symbolExposure, openOrders)
    }

    constructor ()
      ensures View() == NO_EXPOSURE
    {
      totalExposure, symbolExposure, openOrders := 0.0, map[], 0;
    }

    /** True when the signal is allowed, and then recorded; a veto leaves the tracker as it was. */
    method TryAdd(signal: Signal, caps: RiskCaps) returns (ok: bool)
      modifies this
      ensures match CheckAndUpdate(old(View()), signal.symbol, Notional(signal), caps)
              case None => !ok && View() == old(View())
              case Some(e) => ok && View() == e
      ensures ok <==> && old(totalExposure) + signal.desiredSize * 100.0 <= caps.maxExposure
                      && old(View()).Of(signal.symbol) + signal.desiredSize * 100.0 <= caps.maxSymbolExposure
                      && old(openOrders) + 1 <= caps.maxOpenOrders
    {
      var newExposure := signal.desiredSize * REFERENCE_PRICE;
      if totalExposure + newExposure > caps.maxExposure {
        return false;
      }
      var symbolNow := if signal.symbol in symbolExposure then symbolExposure[signal.symbol] else 0.0;
      if symbolNow + newExposure > caps.maxSymbolExposure {
        return false;
      }
      if openOrders >= caps.maxOpenOrders {
        return false;
      }
      totalExposure := totalExposure + newExposure;
      symbolExposure := symbolExposure[signal.symbol := symbolNow + newExposure];
      openOrders := openOrders + 1;
      return true;
    }

    method Free(symbol: string, exposure: real)
      modifies this
      ensures View() == Release(old(View()), symbol, exposure)
    {
      totalExposure := totalExposure - exposure;
      if symbol in symbolExposure {
        symbolExposure := symbolExposure[symbol := symbolExposure[symbol] - exposure];
      }
      if openOrders > 0 {
        openOrders := openOrders - 1;
      }
    }
  }

  // ----- the tracker as a ledger of open orders -----

  datatype OpenOrder = OpenOrder(symbol: string, notional: real)

  datatype LedgerEvent =
    | Submit(order: OpenOrder)
    | Close(index: nat)  // the order at this position of the open list is filled or cancelled

  function OpenTotal(orders: seq<OpenOrder>): real {
    if orders == [] then 0.0 else OpenTotal(orders[..|orders| - 1]) + orders[|orders| - 1].notional
  }

  function OpenFor(orders: seq<OpenOrder>, symbol: string): real {
    if orders == [] then 0.0
    else
      var last := orders[|orders| - 1];
      OpenFor(orders[..|orders| - 1], symbol) + (if last.symbol == symbol then last.notional else 0.0)
  }

  /** The sum of the per-symbol entries over the symbols listed. */
  function EntrySum(e: Exposure, symbols: seq<string>): real {
    if symbols == [] then 0.0
    else EntrySum(e, symbols[..|symbols| - 1]) + e.Of(symbols[|symbols| - 1])
  }

  /** One ledger event: the tracker and the list of open orders move together. A close names an
      open order; anything else is not a release the engine can make. */
  function Apply(e: Exposure, open: seq<OpenOrder>, ev: LedgerEvent, caps: RiskCaps): (Exposure, seq<OpenOrder>) {
    match ev
    case Submit(o) =>
      (match CheckAndUpdate(e, o.symbol, o.notional, caps)
       case None => (e, open)
       case Some(e') => (e', open + [o]))
    case Close(i) =>
      if i < |open| then (Release(e, open[i].symbol, open[i].notional), RemoveAt(open, i)) else (e, open)
  }

  function Replay(evs: seq<LedgerEvent>, caps: RiskCaps): (Exposure, seq<OpenOrder>) {
    if evs == [] then (NO_EXPOSURE, [])
    else
      var (e, open) := Replay(evs[..|evs| - 1], caps);
      Apply(e, open, evs[|evs| - 1], caps)
  }

  /** The tracker's three figures are exactly those of the open orders. */
  ghost predicate Accounts(e: Exposure, open: seq<OpenOrder>) {
    && e.total == OpenTotal(open)
    && e.openOrders == |open|
    && (forall s :: e.Of(s) == OpenFor(open, s))
    && (forall i :: 0 <= i < |open| ==> open[i].symbol in e.bySymbol)
  }

  ghost predicate WithinCaps(e: Exposure, caps: RiskCaps) {
    && e.total <= caps.maxExposure
    && (forall s :: e.Of(s) <= caps.maxSymbolExposure)
    && e.openOrders <= caps.maxOpenOrders
  }

  lemma OpenAppend(open: seq<OpenOrder>, o: OpenOrder, s: string)
    ensures OpenTotal(open + [o]) == OpenTotal(open) + o.notional
    ensures OpenFor(open + [o], s) == OpenFor(open, s) + (if o.symbol == s then o.notional else 0.0)
  {
    assert (open + [o])[..|open|] == open;
  }

  lemma {:induction false} OpenRemove(open: seq<OpenOrder>, i: nat, s: string)
    requires i < |open|
    ensures OpenTotal(RemoveAt(open, i)) == OpenTotal(open) - open[i].notional
    ensures OpenFor(RemoveAt(open, i), s)
            == OpenFor(open, s) - (if open[i].symbol == s then open[i].notional else 0.0)
  {
    var n := |open| - 1;
    if i == n {
      assert RemoveAt(open, i) == open[..n];
    } else {
      var rest := RemoveAt(open, i);
      OpenRemove(open[..n], i, s);
      assert rest[..n - 1] == RemoveAt(open[..n], i) && rest[n - 1] == open[n];
    }
  }

  lemma SubmitAccounts(e: Exposure, open: seq<OpenOrder>, o: OpenOrder, caps: RiskCaps)
    requires Accounts(e, open)
    ensures Accounts(Apply(e, open, Submit(o), caps).0, Apply(e, open, Submit(o), caps).1)
  {
    var (e', open') := Apply(e, open, Submit(o), caps);
    OpenAppend(open, o, o.symbol);
    forall s ensures e'.Of(s) == OpenFor(open', s) {
      OpenAppend(open, o, s);
    }
  }

  lemma CloseAccounts(e: Exposure, open: seq<OpenOrder>, i: nat)
    requires Accounts(e, open) && i < |open|
    ensures Accounts(Release(e, open[i].symbol, open[i].notional), RemoveAt(open, i))
  {
    var e', open' := Release(e, open[i].symbol, open[i].notional), RemoveAt(open, i);
    OpenRemove(open, i, open[i].symbol);
    forall s ensures e'.Of(s) == OpenFor(open', s) {
      OpenRemove(open, i, s);
    }
  }

  lemma ApplyAccounts(e: Exposure, open: seq<OpenOrder>, ev: LedgerEvent, caps: RiskCaps)
    requires Accounts(e, open)
    ensures Accounts(Apply(e, open, ev, caps).0, Apply(e, open, ev, caps).1)
  {
    match ev {
      case Submit(o) => SubmitAccounts(e, open, o, caps);
      case Close(i) =>
        if i < |open| {
          CloseAccounts(e, open, i);
        }
    }
  }

  /** Whatever is submitted and closed, in whatever order, the tracker accounts for exactly the
      open orders. */
  lemma {:induction false} LedgerAccounts(evs: seq<LedgerEvent>, caps: RiskCaps)
    ensures Accounts(Replay(evs, caps).0, Replay(evs, caps).1)
  {
    if evs != [] {
      LedgerAccounts(evs[..|evs| - 1], caps);
      var (e, open) := Replay(evs[..|evs| - 1], caps);
      ApplyAccounts(e, open, evs[|evs| - 1], caps);
    }
  }

  /** With nonnegative notionals all three caps hold after every event, closes included. */
  lemma {:induction false} LedgerWithinCaps(evs: seq<LedgerEvent>, caps: RiskCaps)
    requires caps.maxExposure >= 0.0 && caps.maxSymbolExposure >= 0.0
    requires forall i :: 0 <= i < |evs| && evs[i].Submit? ==> evs[i].order.notional >= 0.0
    ensures WithinCaps(Replay(evs, caps).0, caps)
    ensures forall i :: 0 <= i < |Replay(evs, caps).1| ==> Replay(evs, caps).1[i].notional >= 0.0
  {
    if evs != [] {
      var past, ev := evs[..|evs| - 1], evs[|evs| - 1];
      LedgerWithinCaps(past, caps);
      var (e, open) := Replay(past, caps);
      var e' := Apply(e, open, ev, caps).0;
      forall s ensures e'.Of(s) <= caps.maxSymbolExposure {
        assert e.Of(s) <= caps.maxSymbolExposure;
      }
    }
  }

  /** When nothing is open, everything reads zero. */
  lemma FlatWhenNothingOpen(e: Exposure)
    requires Accounts(e, [])
    ensures Flat(e)
  {
    assert forall s :: e.Of(s) == OpenFor([], s);
  }

  ghost predicate Flat(e: Exposure) {
    e.total == 0.0 && e.openOrders == 0 && forall s :: e.Of(s) == 0.0
  }

  /** Over any listing of the known symbols without repetition, the entries sum to the total. */
  lemma TotalIsSymbolSum(e: Exposure, open: seq<OpenOrder>, symbols: seq<string>)
    requires Accounts(e, open)
    requires forall i, j :: 0 <= i < j < |symbols| ==> symbols[i] != symbols[j]
    requires forall s :: s in e.bySymbol ==> s in symbols
    ensures EntrySum(e, symbols) == e.total
  {
    EntriesAreOpen(e, open, symbols);
    OpenSumOverSymbols(open, symbols);
  }

  /** What the listed symbols have open, symbol by symbol. */
  function OpenSum(open: seq<OpenOrder>, symbols: seq<string>): real {
    if symbols == [] then 0.0
    else OpenSum(open, symbols[..|symbols| - 1]) + OpenFor(open, symbols[|symbols| - 1])
  }

  lemma {:induction false} EntriesAreOpen(e: Exposure, open: seq<OpenOrder>, symbols: seq<string>)
    requires Accounts(e, open)
    ensures EntrySum(e, symbols) == OpenSum(open, symbols)
  {
    if symbols != [] {
      EntriesAreOpen(e, open, symbols[..|symbols| - 1]);
    }
  }

  lemma {:induction false} OpenSumAppend(open: seq<OpenOrder>, o: OpenOrder, symbols: seq<string>)
    requires forall i, j :: 0 <= i < j < |symbols| ==> symbols[i] != symbols[j]
    ensures OpenSum(open + [o], symbols)
            == OpenSum(open, symbols) + (if o.symbol in symbols then o.notional else 0.0)
  {
    if symbols != [] {
      var n := |symbols| - 1;
      OpenSumAppend(open, o, symbols[..n]);
      OpenAppend(open, o, symbols[n]);
    }
  }

  lemma {:induction false} OpenSumNone(symbols: seq<string>)
    ensures OpenSum([], symbols) == 0.0
  {
    if symbols != [] {
      OpenSumNone(symbols[..|symbols| - 1]);
    }
  }

  /** Splitting the open orders by symbol loses nothing as long as every symbol is listed once. */
  lemma {:induction false} OpenSumOverSymbols(open: seq<OpenOrder>, symbols: seq<string>)
    requires forall i, j :: 0 <= i < j < |symbols| ==> symbols[i] != symbols[j]
    requires forall i :: 0 <= i < |open| ==> open[i].symbol in symbols
    ensures OpenSum(open, symbols) == OpenTotal(open)
  {
    if open == [] {
      OpenSumNone(symbols);
    } else {
      var n := |open| - 1;
      OpenSumOverSymbols(open[..n], symbols);
      OpenSumAppend(open[..n], open[n], symbols);
      assert open == open[..n] + [open[n]];
    }
  }

  // ----- the execution loop -----

  /** What a signal needs to pass when nothing else is open. */
  predicate FitsAlone(signal: Signal, caps: RiskCaps) {
    && Notional(signal) <= caps.maxExposure
    && Notional(signal) <= caps.maxSymbolExposure
    && caps.maxOpenOrders >= 1
  }

  /** Recorded, filled and released at once: one signal leaves a flat tracker flat, and it passes
      exactly when it fits on its own. */
  lemma FlatRoundTrip(e: Exposure, signal: Signal, caps: RiskCaps)
    requires Flat(e)
    ensures CheckAndUpdate(e, signal.symbol, Notional(signal), caps).Some? <==> FitsAlone(signal, caps)
    ensures FitsAlone(signal, caps) ==>
              Flat(Release(CheckAndUpdate(e, signal.symbol, Notional(signal), caps).value,
                           signal.symbol, Notional(signal)))
  {
    assert e.Of(signal.symbol) == 0.0;
    if FitsAlone(signal, caps) {
      var busy := CheckAndUpdate(e, signal.symbol, Notional(signal), caps).value;
      var freed := Release(busy, signal.symbol, Notional(signal));
      forall s ensures freed.Of(s) == 0.0 {
        assert e.Of(s) == 0.0;
      }
    }
  }

  function ShadowOrder(signal: Signal): Order {
    Order(signal.symbol, signal.side, signal.desiredSize, None, Filled, ShadowRecorded, signal.ts, true)
  }

  function ShadowTrade(signal: Signal): Trade {
    Trade(signal.symbol, signal.side, signal.desiredSize, REFERENCE_PRICE,
          signal.desiredSize * REFERENCE_PRICE * 0.001, signal.ts, true)
  }

  /** The records of one executed signal: a filled shadow order for its side and size, and a fill at the
      reference price of 100 with a fee of a thousandth. */
  ghost predicate RecordsOne(signal: Signal, o: PersistEvent, t: PersistEvent) {
    && o.OrderEvent? && o.order.symbol == signal.symbol && o.order.side == signal.side
    && o.order.qty == signal.desiredSize && o.order.price == None && o.order.ts == signal.ts && o.order.isShadow
    && o.order.status == Filled && o.order.reason == ShadowRecorded
    && t.TradeEvent? && t.trade.symbol == signal.symbol && t.trade.side == signal.side
    && t.trade.fillQty == signal.desiredSize && t.trade.fillPrice == 100.0
    && t.trade.fees == signal.desiredSize / 10.0 && t.trade.ts == signal.ts && t.trade.isShadow
  }

  /** The records of the executed signals: two for each, in order. */
  ghost predicate RecordsAll(executed: seq<Signal>, records: seq<PersistEvent>) {
    && |records| == 2 * |executed|
    && forall k :: 0 <= k < |executed| ==> RecordsOne(executed[k], records[2 * k], records[2 * k + 1])
  }

  lemma {:induction false} RecordsAre(executed: seq<Signal>)
    ensures RecordsAll(executed, Records(executed))
  {
    if executed != [] {
      RecordsAre(executed[..|executed| - 1]);
    }
  }

  /** The signals that fit on their own, in order. */
  function Fitting(signals: seq<Signal>, caps: RiskCaps): seq<Signal> {
    if signals == [] then []
    else
      var n := |signals| - 1;
      Fitting(signals[..n], caps) + (if FitsAlone(signals[n], caps) then [signals[n]] else [])
  }

  /** What is offered to persistence for the executed signals: an order and its fill for each. */
  function Records(executed: seq<Signal>): seq<PersistEvent> {
    if executed == [] then []
    else
      var last := executed[|executed| - 1];
      Records(executed[..|executed| - 1]) + [OrderEvent(ShadowOrder(last)), TradeEvent(ShadowTrade(last))]
  }

  /** The loop over received signals. A veto depends only on the signal's own notional and the
      caps: earlier signals never use up capacity. */
  method RunExecutionTask(caps: RiskCaps, signals: seq<Signal>)
    returns (ghost executed: seq<Signal>, offered: seq<PersistEvent>, shadowOrders: nat, trades: nat, vetoes: nat)
    ensures offered == Records(Fitting(signals, caps))
    ensures executed == Fitting(signals, caps) && RecordsAll(executed, offered)
    ensures shadowOrders == trades == |executed| && shadowOrders + vetoes == |signals|
  {
    executed, offered, shadowOrders, trades, vetoes := [], [], 0, 0, 0;
    var exposure := new ExposureTracker();
    for i := 0 to |signals|
      invariant Flat(exposure.View())
      invariant executed == Fitting(signals[..i], caps)
      invariant offered == Records(executed)
      invariant shadowOrders == trades == |executed| && shadowOrders + vetoes == i
    {
      var signal := signals[i];
      assert signals[..i + 1][..i] == signals[..i];
      FlatRoundTrip(exposure.View(), signal, caps);
      var ok := exposure.TryAdd(signal, caps);
      if !ok {
        vetoes := vetoes + 1;
        continue;
      }
      shadowOrders, trades := shadowOrders + 1, trades + 1;
      assert (executed + [signal])[..|executed|] == executed;
      executed := executed + [signal];
      offered := offered + [OrderEvent(ShadowOrder(signal)), TradeEvent(ShadowTrade(signal))];
      exposure.Free(signal.symbol, signal.desiredSize * REFERENCE_PRICE);
    }
    assert signals[..|signals|] == signals;
    RecordsAre(executed);
  }
}
