/** The SMA-crossover strategy task (engine-rust/src/strategy.rs).

    The reference is `SideAt`, which reads the signal of a tick off the whole price history. The
    task keeps a 20-price window and one previous difference instead; `OnPriceRefines` and
    `RunStrategyTask` show that nothing is lost by that. */
module Strategy {
  import opened Wrappers
  import opened Sequences
  import opened Types

  const SMA_SHORT_WINDOW: nat := 5
  const SMA_LONG_WINDOW: nat := 20

  function Mean(s: seq<real>): real
    requires s != []
  {
    Sum(s) / |s| as real
  }

  // ----- reference: signals as a function of the price history -----

  /** Short average minus long average after the history `h`. */
  function Diff(h: seq<real>): real
    requires h != []
  {
    Mean(LastN(h, SMA_SHORT_WINDOW)) - Mean(LastN(h, SMA_LONG_WINDOW))
  }

  /** The crossing rule. */
  function Crossing(prev: real, curr: real): Option<Side> {
    if prev <= 0.0 && curr > 0.0 then Some(Buy)
    else if prev >= 0.0 && curr < 0.0 then Some(Sell)
    else None
  }

  /** The side signalled at tick `n` of history `h`, if any. */
  function SideAt(h: seq<real>, n: nat): Option<Side>
    requires n < |h|
  {
    if n < SMA_LONG_WINDOW then None else Crossing(Diff(h[..n]), Diff(h[..n + 1]))
  }

  function Prices(ticks: seq<Tick>): (prices: seq<real>)
    ensures |prices| == |ticks|
  {
    seq(|ticks|, i requires 0 <= i < |ticks| => ticks[i].price)
  }

  /** The record the task emits for a crossing. */
  function MakeSignal(tick: Tick, side: Side): Signal {
    Signal(tick.symbol, side, 0.75, SmaCrossover, 0.1, tick.ts)
  }

  /** Every signal of a tick history, in order. */
  function Signals(ticks: seq<Tick>): seq<Signal> {
    if ticks == [] then []
    else
      var n := |ticks| - 1;
      match SideAt(Prices(ticks), n)
      case None => Signals(ticks[..n])
      case Some(side) => Signals(ticks[..n]) + [MakeSignal(ticks[n], side)]
  }

  // ----- the task's own state -----

  datatype SmaState = SmaState(prices: seq<real>, prevDiff: Option<real>)

  /** One pass through the receive loop: the new window and difference, and the side to emit. */
  function OnPrice(st: SmaState, price: real): (SmaState, Option<Side>) {
    var pushed := st.prices + [price];
    var prices := if |pushed| > SMA_LONG_WINDOW then pushed[1..] else pushed;
    Compare(prices, st.prevDiff, WindowDiff(prices))
  }

  /** Short average minus long average of a window. */
  function WindowDiff(prices: seq<real>): real
    requires prices != []
  {
    var shortLen := if |prices| < SMA_SHORT_WINDOW then |prices| else SMA_SHORT_WINDOW;
    Mean(prices[|prices| - shortLen..]) - Mean(prices)
  }

  /** The comparison with the previous difference, once the window is full. */
  function Compare(prices: seq<real>, prevDiff: Option<real>, diff: real): (SmaState, Option<Side>) {
    if |prices| < SMA_LONG_WINDOW then (SmaState(prices, prevDiff), None)
    else if prevDiff == None then (SmaState(prices, Some(diff)), None)
    else (SmaState(prices, Some(diff)), Crossing(prevDiff.value, diff))
  }

  /** What the task's state has to be after the history `h`. */
  function SmaAfter(h: seq<real>): SmaState {
    SmaState(LastN(h, SMA_LONG_WINDOW), if |h| >= SMA_LONG_WINDOW then Some(Diff(h)) else None)
  }

  /** Trimming the window after a push keeps it the last prices of the history. */
  lemma WindowsPush(h: seq<real>, price: real)
    ensures var pushed := LastN(h, SMA_LONG_WINDOW) + [price];
            LastN(h + [price], SMA_LONG_WINDOW) == (if |pushed| > SMA_LONG_WINDOW then pushed[1..] else pushed)
  {
    LastNPush(h, price, SMA_LONG_WINDOW, SMA_LONG_WINDOW);
  }

  lemma WindowDiffIs(h: seq<real>)
    requires h != []
    ensures WindowDiff(LastN(h, SMA_LONG_WINDOW)) == Diff(h)
  {
    var prices := LastN(h, SMA_LONG_WINDOW);
    var shortLen := if |prices| < SMA_SHORT_WINDOW then |prices| else SMA_SHORT_WINDOW;
    assert prices[|prices| - shortLen..] == LastN(h, SMA_SHORT_WINDOW);
  }

  lemma CompareNth(prices: seq<real>, n: nat, prev: real, diff: real)
    requires |prices| == if n + 1 < SMA_LONG_WINDOW then n + 1 else SMA_LONG_WINDOW
    ensures Compare(prices, if n >= SMA_LONG_WINDOW then Some(prev) else None, diff)
            == (SmaState(prices, if n + 1 >= SMA_LONG_WINDOW then Some(diff) else None),
                if n < SMA_LONG_WINDOW then None else Crossing(prev, diff))
  {
  }

  lemma SideAtLast(h: seq<real>, price: real)
    ensures SideAt(h + [price], |h|)
            == if |h| < SMA_LONG_WINDOW then None else Crossing(Diff(h), Diff(h + [price]))
  {
    assert (h + [price])[..|h|] == h && (h + [price])[..|h| + 1] == h + [price];
  }

  lemma OnPriceWindow(h: seq<real>, price: real)
    ensures OnPrice(SmaAfter(h), price)
            == Compare(LastN(h + [price], SMA_LONG_WINDOW), SmaAfter(h).prevDiff,
                       WindowDiff(LastN(h + [price], SMA_LONG_WINDOW)))
  {
    WindowsPush(h, price);
  }

  /** The window and the remembered difference are enough: one pass of the loop reproduces the
      reference signal and re-establishes its own state. */
  lemma OnPriceRefines(h: seq<real>, price: real)
    ensures OnPrice(SmaAfter(h), price) == (SmaAfter(h + [price]), SideAt(h + [price], |h|))
  {
    var h' := h + [price];
    OnPriceWindow(h, price);
    WindowDiffIs(h');
    SideAtLast(h, price);
    CompareNth(LastN(h', SMA_LONG_WINDOW), |h|, if h == [] then 0.0 else Diff(h), Diff(h'));
  }

  lemma PricesPush(ticks: seq<Tick>, tick: Tick)
    ensures Prices(ticks + [tick]) == Prices(ticks) + [tick.price]
  {
  }

  lemma SignalsLast(all: seq<Tick>, past: seq<Tick>, tick: Tick, prices: seq<real>)
    requires all != [] && all[..|all| - 1] == past && all[|all| - 1] == tick && Prices(all) == prices
    ensures Signals(all) ==
            match SideAt(prices, |past|)
            case None => Signals(past)
            case Some(side) => Signals(past) + [MakeSignal(tick, side)]
  {
  }

  /** Signals of a longer history: the old ones, then possibly one more. */
  lemma SignalsPush(ticks: seq<Tick>, tick: Tick)
    ensures Prices(ticks + [tick]) == Prices(ticks) + [tick.price]
    ensures Signals(ticks + [tick]) ==
            match SideAt(Prices(ticks) + [tick.price], |ticks|)
            case None => Signals(ticks)
            case Some(side) => Signals(ticks) + [MakeSignal(tick, side)]
  {
    assert (ticks + [tick])[..|ticks|] == ticks;
    PricesPush(ticks, tick);
    SignalsLast(ticks + [tick], ticks, tick, Prices(ticks) + [tick.price]);
  }

  /** A history's signals start with the signals of each of its prefixes. */
  lemma {:induction false} SignalsPrefix(ticks: seq<Tick>, n: nat)
    requires n <= |ticks|
    ensures Signals(ticks[..n]) <= Signals(ticks)
    decreases |ticks| - n
  {
    if n == |ticks| {
      assert ticks[..n] == ticks;
    } else {
      SignalsPush(ticks[..n], ticks[n]);
      assert ticks[..n + 1] == ticks[..n] + [ticks[n]];
      SignalsPrefix(ticks, n + 1);
    }
  }

  /** The body of the receive loop: push, trim, average, compare. */
  method OnTick(prices: seq<real>, prevDiff: Option<real>, price: real)
    returns (prices': seq<real>, prevDiff': Option<real>, action: Option<Side>)
    ensures (SmaState(prices', prevDiff'), action) == OnPrice(SmaState(prices, prevDiff), price)
  {
    action := None;
    prices', prevDiff' := prices + [price], prevDiff;
    if |prices'| > SMA_LONG_WINDOW {
      prices' := prices'[1..];
    }
    var shortLen := if |prices'| < SMA_SHORT_WINDOW then |prices'| else SMA_SHORT_WINDOW;
    var currDiff := Mean(prices'[|prices'| - shortLen..]) - Mean(prices');
    if |prices'| < SMA_LONG_WINDOW {
      return;
    }
    prevDiff' := Some(currDiff);
    if prevDiff == None {
      return;
    }
    var prev := prevDiff.value;
    if prev <= 0.0 && currDiff > 0.0 {
      action := Some(Buy);
    } else if prev >= 0.0 && currDiff < 0.0 {
      action := Some(Sell);
    }
  }

  lemma NextTick(ticks: seq<Tick>, i: nat)
    requires i < |ticks|
    ensures var (st, side) := OnPrice(SmaAfter(Prices(ticks[..i])), ticks[i].price);
            && st == SmaAfter(Prices(ticks[..i + 1]))
            && Signals(ticks[..i + 1])
               == match side
                  case None => Signals(ticks[..i])
                  case Some(sd) => Signals(ticks[..i]) + [MakeSignal(ticks[i], sd)]
  {
    OnPriceRefines(Prices(ticks[..i]), ticks[i].price);
    SignalsPush(ticks[..i], ticks[i]);
    assert ticks[..i + 1] == ticks[..i] + [ticks[i]];
  }

  /** The task's loop over the ticks it receives, until the tick channel closes. */
  method RunStrategyTask(ticks: seq<Tick>) returns (generated: seq<Signal>, signalCount: nat)
    ensures generated == Signals(ticks)
    ensures exists at :: RecordsCrossings(ticks, generated, at)
    ensures signalCount == |generated|
  {
    generated, signalCount := [], 0;
    var prices: seq<real> := [];
    var prevDiff: Option<real> := None;
    for i := 0 to |ticks|
      invariant SmaState(prices, prevDiff) == SmaAfter(Prices(ticks[..i]))
      invariant generated == Signals(ticks[..i])
      invariant signalCount == |generated|
    {
      NextTick(ticks, i);
      var action;
      prices, prevDiff, action := OnTick(prices, prevDiff, ticks[i].price);
      if action.Some? {
        generated := generated + [MakeSignal(ticks[i], action.value)];
        signalCount := signalCount + 1;
      }
    }
    assert ticks[..|ticks|] == ticks;
    ghost var at := SignalPositions(ticks);
  }

  // ----- what a signal record says, figure by figure -----

  /** Five prices on average minus twenty, on average, over the last twenty of `h`. */
  lemma DiffIs(h: seq<real>)
    requires |h| >= 20
    ensures Diff(h) == Sum(h[|h| - 5..]) / 5.0 - Sum(h[|h| - 20..]) / 20.0
  {
  }

  /** At tick `n`, after at least 20 others, the difference goes from at most 0 to above 0 for a BUY,
      and from at least 0 to below 0 for a SELL. */
  ghost predicate Crosses(h: seq<real>, n: nat, side: Side)
    requires n < |h|
  {
    n >= 20
    && (match side
        case Buy => Diff(h[..n]) <= 0.0 < Diff(h[..n + 1])
        case Sell => Diff(h[..n + 1]) < 0.0 <= Diff(h[..n]))
  }

  lemma SideAtIff(h: seq<real>, n: nat, side: Side)
    requires n < |h|
    ensures SideAt(h, n) == Some(side) <==> Crosses(h, n, side)
  {
  }

  /** `g` is the record of a crossing at tick `n`. */
  ghost predicate RecordOf(ticks: seq<Tick>, n: nat, g: Signal) {
    && n < |ticks| && Crosses(Prices(ticks), n, g.side)
    && g.symbol == ticks[n].symbol && g.ts == ticks[n].ts
    && g.confidence == 0.75 && g.reason == SmaCrossover && g.desiredSize == 0.1
  }

  /** The k-th record is that of the crossing at tick `at[k]`, in the order of the ticks, and no
      crossing is left out. */
  ghost predicate RecordsCrossings(ticks: seq<Tick>, generated: seq<Signal>, at: seq<nat>) {
    && |at| == |generated|
    && (forall k :: 0 <= k < |at| ==> RecordOf(ticks, at[k], generated[k]))
    && (forall j, k :: 0 <= j < k < |at| ==> at[j] < at[k])
    && (forall n: nat, side :: n < |ticks| && Crosses(Prices(ticks), n, side) ==> n in at)
  }

  lemma CrossesPrefix(ticks: seq<Tick>, m: nat, n: nat, side: Side)
    requires n < m <= |ticks|
    ensures Crosses(Prices(ticks[..m]), n, side) == Crosses(Prices(ticks), n, side)
  {
    var h, g := Prices(ticks), Prices(ticks[..m]);
    assert g[..n] == h[..n] && g[..n + 1] == h[..n + 1];
  }

  lemma {:induction false} SignalPositions(ticks: seq<Tick>) returns (at: seq<nat>)
    ensures RecordsCrossings(ticks, Signals(ticks), at)
  {
    at := [];
    if ticks != [] {
      var n, h := |ticks| - 1, Prices(ticks);
      var past := SignalPositions(ticks[..n]);
      PastRecords(ticks, Signals(ticks[..n]), past);
      SideAtIff(h, n, Buy);
      SideAtIff(h, n, Sell);
      SignalsLast(ticks, ticks[..n], ticks[n], h);
      match SideAt(h, n) {
        case None =>
          NoRecord(ticks, Signals(ticks[..n]), past);
          at := past;
        case Some(side) =>
          AppendRecord(ticks, Signals(ticks[..n]), past, MakeSignal(ticks[n], side));
          at := past + [n];
      }
    }
  }

  /** The records of all but the last tick, seen in the longer history. */
  ghost predicate RecordsBefore(ticks: seq<Tick>, generated: seq<Signal>, at: seq<nat>)
    requires ticks != []
  {
    && |at| == |generated|
    && (forall k :: 0 <= k < |at| ==> at[k] < |ticks| - 1 && RecordOf(ticks, at[k], generated[k]))
    && (forall j, k :: 0 <= j < k < |at| ==> at[j] < at[k])
    && (forall n: nat, side :: n < |ticks| - 1 && Crosses(Prices(ticks), n, side) ==> n in at)
  }

  lemma PastRecords(ticks: seq<Tick>, generated: seq<Signal>, at: seq<nat>)
    requires ticks != [] && RecordsCrossings(ticks[..|ticks| - 1], generated, at)
    ensures RecordsBefore(ticks, generated, at)
  {
    var past := ticks[..|ticks| - 1];
    forall k | 0 <= k < |at| ensures at[k] < |past| && RecordOf(ticks, at[k], generated[k]) {
      assert RecordOf(past, at[k], generated[k]);
      CrossesPrefix(ticks, |past|, at[k], generated[k].side);
    }
    forall n: nat, side | n < |past| && Crosses(Prices(ticks), n, side) ensures n in at {
      CrossesPrefix(ticks, |past|, n, side);
    }
  }

  lemma AppendRecord(ticks: seq<Tick>, generated: seq<Signal>, past: seq<nat>, g: Signal)
    requires ticks != [] && RecordsBefore(ticks, generated, past) && RecordOf(ticks, |ticks| - 1, g)
    ensures RecordsCrossings(ticks, generated + [g], past + [|ticks| - 1])
  {
    var n, at, all := |ticks| - 1, past + [|ticks| - 1], generated + [g];
    assert at[|past|] == n;
    forall k | 0 <= k < |at| ensures RecordOf(ticks, at[k], all[k]) {
      if k < |past| {
        assert RecordOf(ticks, past[k], generated[k]);
      }
    }
    forall i: nat, side | i < |ticks| && Crosses(Prices(ticks), i, side) ensures i in at {
      if i < n {
        assert i in past;
      }
    }
  }

  lemma NoRecord(ticks: seq<Tick>, generated: seq<Signal>, past: seq<nat>)
    requires ticks != [] && RecordsBefore(ticks, generated, past)
    requires !Crosses(Prices(ticks), |ticks| - 1, Buy) && !Crosses(Prices(ticks), |ticks| - 1, Sell)
    ensures RecordsCrossings(ticks, generated, past)
  {
    forall k | 0 <= k < |past| ensures RecordOf(ticks, past[k], generated[k]) {
    }
    forall i: nat, side | i < |ticks| && Crosses(Prices(ticks), i, side) ensures i in past {
    }
  }

  // ----- affine symmetry -----

  function AffineAt(p: real, a: real, b: real): real {
    a * p + b
  }

  function Affine(h: seq<real>, a: real, b: real): (r: seq<real>)
    ensures |r| == |h|
  {
    seq(|h|, i requires 0 <= i < |h| => AffineAt(h[i], a, b))
  }

  lemma {:induction false} SumAffine(s: seq<real>, a: real, b: real)
    ensures Sum(Affine(s, a, b)) == a * Sum(s) + b * |s| as real
  {
    if s != [] {
      var n := |s| - 1;
      SumAffine(s[..n], a, b);
      assert Affine(s, a, b)[..n] == Affine(s[..n], a, b);
      assert a * (Sum(s[..n]) + s[n]) == a * Sum(s[..n]) + a * s[n];
      assert b * (n as real + 1.0) == b * n as real + b;
    }
  }

  lemma DivideOut(x: real, y: real, n: real)
    requires n != 0.0 && x == y * n
    ensures x / n == y
  {
  }

  lemma MeanAffine(s: seq<real>, a: real, b: real)
    requires s != []
    ensures Mean(Affine(s, a, b)) == a * Mean(s) + b
  {
    var n := |s| as real;
    var m := Sum(s) / n;
    SumAffine(s, a, b);
    assert (a * m + b) * n == a * (m * n) + b * n;
    DivideOut(Sum(Affine(s, a, b)), a * m + b, n);
  }

  /** Shifting all prices leaves the difference alone; scaling them scales it. */
  lemma DiffAffine(h: seq<real>, a: real, b: real)
    requires h != []
    ensures Diff(Affine(h, a, b)) == a * Diff(h)
  {
    var short, long := LastN(h, SMA_SHORT_WINDOW), LastN(h, SMA_LONG_WINDOW);
    assert LastN(Affine(h, a, b), SMA_SHORT_WINDOW) == Affine(short, a, b);
    assert LastN(Affine(h, a, b), SMA_LONG_WINDOW) == Affine(long, a, b);
    MeanAffine(short, a, b);
    MeanAffine(long, a, b);
    assert a * (Mean(short) - Mean(long)) == a * Mean(short) - a * Mean(long);
  }

  function Mirror(a: real, side: Option<Side>): Option<Side> {
    if a == 0.0 || side == None then None
    else if a > 0.0 then side
    else Some(side.value.Opposite())
  }

  lemma CrossingScaled(a: real, prev: real, curr: real)
    ensures Crossing(a * prev, a * curr) == Mirror(a, Crossing(prev, curr))
  {
    ScaledSign(a, prev);
    ScaledSign(a, curr);
  }

  lemma ScaledSign(a: real, x: real)
    ensures a > 0.0 ==> (a * x > 0.0 <==> x > 0.0) && (a * x < 0.0 <==> x < 0.0)
    ensures a < 0.0 ==> (a * x > 0.0 <==> x < 0.0) && (a * x < 0.0 <==> x > 0.0)
    ensures a == 0.0 ==> a * x == 0.0
  {
  }

  /** Mapping every price p to a*p + b keeps every signal when a > 0, swaps BUY and SELL when
      a < 0, and silences the strategy when a = 0. */
  lemma AffineSymmetry(h: seq<real>, a: real, b: real, n: nat)
    requires n < |h|
    ensures SideAt(Affine(h, a, b), n) == Mirror(a, SideAt(h, n))
  {
    if n >= SMA_LONG_WINDOW {
      var g := Affine(h, a, b);
      assert g[..n] == Affine(h[..n], a, b) && g[..n + 1] == Affine(h[..n + 1], a, b);
      DiffAffine(h[..n], a, b);
      DiffAffine(h[..n + 1], a, b);
      CrossingScaled(a, Diff(h[..n]), Diff(h[..n + 1]));
    }
  }

  function AffineTicks(ticks: seq<Tick>, a: real, b: real): (r: seq<Tick>)
    ensures |r| == |ticks|
  {
    seq(|ticks|, i requires 0 <= i < |ticks| => ticks[i].(price := AffineAt(ticks[i].price, a, b)))
  }

  /** Every BUY turned into a SELL and the other way round. */
  function Swapped(signals: seq<Signal>): seq<Signal> {
    if signals == [] then []
    else
      var last := signals[|signals| - 1];
      Swapped(signals[..|signals| - 1]) + [last.(side := last.side.Opposite())]
  }

  lemma SwappedPush(signals: seq<Signal>, signal: Signal)
    ensures Swapped(signals + [signal]) == Swapped(signals) + [signal.(side := signal.side.Opposite())]
  {
    assert (signals + [signal])[..|signals|] == signals;
  }

  function MirroredRun(a: real, signals: seq<Signal>): seq<Signal> {
    if a == 0.0 then [] else if a > 0.0 then signals else Swapped(signals)
  }

  lemma MirrorOne(a: real, past: seq<Signal>, tick: Tick, side: Option<Side>)
    ensures side.None? ==> Mirror(a, side).None?
    ensures side.Some? ==>
              MirroredRun(a, past + [MakeSignal(tick, side.value)])
              == match Mirror(a, side)
                 case None => MirroredRun(a, past)
                 case Some(turned) => MirroredRun(a, past) + [MakeSignal(tick, turned)]
  {
    if side.Some? {
      SwappedPush(past, MakeSignal(tick, side.value));
    }
  }

  /** The same over a whole run: every signal record, in order. */
  lemma {:induction false} RunAffineSymmetry(ticks: seq<Tick>, a: real, b: real)
    ensures Signals(AffineTicks(ticks, a, b)) == MirroredRun(a, Signals(ticks))
  {
    if ticks != [] {
      var n, moved := |ticks| - 1, AffineTicks(ticks, a, b);
      RunAffineSymmetry(ticks[..n], a, b);
      assert moved[..n] == AffineTicks(ticks[..n], a, b);
      assert Prices(moved) == Affine(Prices(ticks), a, b);
      AffineSymmetry(Prices(ticks), a, b, n);
      SignalsLast(ticks, ticks[..n], ticks[n], Prices(ticks));
      SignalsLast(moved, moved[..n], moved[n], Prices(moved));
      MirrorOne(a, Signals(ticks[..n]), ticks[n], SideAt(Prices(ticks), n));
    }
  }

  // ----- the trace of crossings -----

  /** `side` was signalled at tick `i` and nothing was signalled strictly between `i` and `j`. */
  ghost predicate LastSignal(h: seq<real>, i: nat, j: nat, side: Side) {
    && i < j < |h|
    && SideAt(h, i) == Some(side)
    && forall k :: i < k < j ==> SideAt(h, k) == None
  }

  /** The difference after tick `k` leans to `side`: not below zero for BUY, not above for SELL. */
  ghost predicate Leans(h: seq<real>, k: nat, side: Side)
    requires k < |h|
  {
    if side == Buy then Diff(h[..k + 1]) >= 0.0 else Diff(h[..k + 1]) <= 0.0
  }

  /** Between two signals the difference never takes the sign opposite to the earlier one. */
  lemma {:induction false} LeansUntilNext(h: seq<real>, i: nat, j: nat, side: Side, k: nat)
    requires LastSignal(h, i, j, side)
    requires i <= k < j
    ensures Leans(h, k, side)
    decreases k
  {
    if k > i {
      LeansUntilNext(h, i, j, side, k - 1);
      assert h[..k] == h[..(k - 1) + 1];
      assert SideAt(h, k) == None;
    }
  }

  /** The next signal after one of `side`: the opposite side exactly when the difference moves to
      the opposite sign; the same side again exactly when the difference was back at 0 just before
      and has now moved to `side`'s sign. */
  lemma NextSignal(h: seq<real>, i: nat, j: nat, side: Side)
    requires LastSignal(h, i, j, side)
    ensures j > SMA_LONG_WINDOW
    ensures SideAt(h, j) == Some(side.Opposite()) <==> !Leans(h, j, side)
    ensures SideAt(h, j) == Some(side) <==>
            Diff(h[..j]) == 0.0 && Diff(h[..j + 1]) != 0.0 && Leans(h, j, side)
  {
    LeansUntilNext(h, i, j, side, j - 1);
    assert h[..j] == h[..(j - 1) + 1];
  }
}
