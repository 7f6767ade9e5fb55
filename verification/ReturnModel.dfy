/** The rolling return model (strategies/stale_edge.py).

    The reference keeps every sample ever seen and, for each, asks whether the price rose over the
    horizon. The class forgets samples older than two horizons and all but the last `maxReturns`
    returns; on nondecreasing sample times that is not observable. */
module ReturnModel {
  import opened Wrappers
  import opened Sequences

  datatype Sample = Sample(ts: int, price: real)

  ghost predicate Ordered(samples: seq<Sample>) {
    forall i, j :: 0 <= i <= j < |samples| ==> samples[i].ts <= samples[j].ts
  }

  // ----- reference: the full history -----

  /** The price of the latest sample taken from `lo` to `hi`. */
  function LatestIn(h: seq<Sample>, lo: int, hi: int): Option<real> {
    if h == [] then None
    else
      var last := h[|h| - 1];
      if lo <= last.ts <= hi then Some(last.price) else LatestIn(h[..|h| - 1], lo, hi)
  }

  /** The reference price of the last sample: the latest one between two and one horizons ago. */
  function Reference(h: seq<Sample>, horizonMs: int): Option<real>
    requires h != []
  {
    var ts := h[|h| - 1].ts;
    LatestIn(h, ts - 2 * horizonMs, ts - horizonMs)
  }

  /** For every sample that has a positive reference price: did the price rise? */
  function Moves(h: seq<Sample>, horizonMs: int): seq<bool> {
    if h == [] then []
    else
      var before := Moves(h[..|h| - 1], horizonMs);
      match Reference(h, horizonMs)
      case None => before
      case Some(ref) => if ref > 0.0 then before + [h[|h| - 1].price > ref] else before
  }

  function Ups(moves: seq<bool>): (n: nat)
    ensures n <= |moves|
  {
    if moves == [] then 0 else Ups(moves[..|moves| - 1]) + (if moves[|moves| - 1] then 1 else 0)
  }

  /** The fraction of rises among the last `maxReturns` moves, once there are enough of them. */
  function FairUp(h: seq<Sample>, horizonMs: int, warmup: int, maxReturns: nat): (r: Option<real>)
    ensures r.Some? ==> 0.0 <= r.value <= 1.0
  {
    var recent := LastN(Moves(h, horizonMs), maxReturns);
    if |recent| < warmup || recent == [] then None
    else
      FractionBounds(Ups(recent), |recent|);
      Some(Ups(recent) as real / |recent| as real)
  }

  lemma FractionBounds(k: nat, n: nat)
    requires k <= n && n > 0
    ensures 0.0 <= k as real / n as real <= 1.0
  {
  }

  // ----- the model's own state -----

  datatype Model = Model(prices: seq<Sample>, gains: seq<real>)

  /** The first sample at or before `hi`, searched from the newest. */
  function LatestAtMost(samples: seq<Sample>, hi: int): Option<real> {
    if samples == [] then None
    else
      var last := samples[|samples| - 1];
      if last.ts <= hi then Some(last.price) else LatestAtMost(samples[..|samples| - 1], hi)
  }

  /** Popping from the front while the sample is older than `cutoff`. */
  function Trim(samples: seq<Sample>, cutoff: int): seq<Sample> {
    if samples != [] && samples[0].ts < cutoff then Trim(samples[1..], cutoff) else samples
  }

  /** The return of a sample against its reference price, when that is positive. */
  function Return(price: real, ref: Option<real>): Option<real> {
    if ref.Some? && ref.value > 0.0 then Some((price - ref.value) / ref.value) else None
  }

  function Record(gains: seq<real>, ret: Option<real>, maxReturns: nat): seq<real> {
    if ret.Some? then LastN(gains + [ret.value], maxReturns) else gains
  }

  function UpdateModel(m: Model, horizonMs: int, maxReturns: nat, s: Sample): Model {
    var prices := Trim(m.prices + [s], s.ts - 2 * horizonMs);
    var ret := Return(s.price, LatestAtMost(prices, s.ts - horizonMs));
    Model(prices, Record(m.gains, ret, maxReturns))
  }

  /** Which of the recorded returns are rises. */
  function Positive(gains: seq<real>): (r: seq<bool>)
    ensures |r| == |gains|
  {
    seq(|gains|, i requires 0 <= i < |gains| => gains[i] > 0.0)
  }

  function UpProb(m: Model, warmup: int): Option<real> {
    if |m.gains| < warmup || m.gains == [] then None
    else Some(Ups(Positive(m.gains)) as real / |m.gains| as real)
  }

  /** A sequence that is itself shifted by one is constant. */
  lemma {:induction false} ShiftedIsConstant(all: seq<Sample>)
    requires all != [] && all[1..] == all[..|all| - 1]
    ensures all[0] == all[|all| - 1]
  {
    var n := |all| - 1;
    if n > 0 {
      assert all[1..][n - 1] == all[n] && all[..n][n - 1] == all[n - 1];
      assert all[..n][1..] == all[..n][..n - 1] by {
        assert forall i :: 0 <= i < n - 1 ==> all[1..][i] == all[..n][i];
      }
      ShiftedIsConstant(all[..n]);
    }
  }

  lemma ShiftMoves(all: seq<Sample>)
    requires all != [] && all[0] != all[|all| - 1]
    ensures all[1..] != all[..|all| - 1]
  {
    if all[1..] == all[..|all| - 1] {
      ShiftedIsConstant(all);
    }
  }

  /** An update is never without effect. */
  lemma UpdateChanges(m: Model, horizonMs: int, maxReturns: nat, s: Sample)
    requires horizonMs >= 0
    ensures UpdateModel(m, horizonMs, maxReturns, s) != m
  {
    var all := m.prices + [s];
    var n := TrimDrops(all, s.ts - 2 * horizonMs);
    assert all[|all| - 1] == s && all[..|all| - 1] == m.prices;
    if n == 1 {
      assert all[0] != s;
      ShiftMoves(all);
    } else {
      assert |all[n..]| != |m.prices|;
    }
  }

  /** `Ups` counts the positions at which there was a rise. */
  lemma {:induction false} UpsArePositions(moves: seq<bool>) returns (at: set<nat>)
    ensures |at| == Ups(moves) && forall i: nat :: i in at <==> i < |moves| && moves[i]
  {
    at := {};
    if moves != [] {
      var n := |moves| - 1;
      var past := UpsArePositions(moves[..n]);
      at := if moves[n] then past + {n} else past;
    }
  }

  // ----- refinement -----

  /** What the model has to hold after the history `h`. */
  ghost predicate Summarises(m: Model, h: seq<Sample>, horizonMs: int, maxReturns: nat) {
    && (h == [] ==> m.prices == [])
    && (h != [] ==> m.prices == Trim(h, h[|h| - 1].ts - 2 * horizonMs))
    && Positive(m.gains) == LastN(Moves(h, horizonMs), maxReturns)
  }

  /** Trimming drops `n` old samples, and stops at one that is not old. */
  lemma {:induction false} TrimDrops(samples: seq<Sample>, cutoff: int) returns (n: nat)
    ensures n <= |samples| && Trim(samples, cutoff) == samples[n..]
    ensures forall i :: 0 <= i < n ==> samples[i].ts < cutoff
    ensures n < |samples| ==> samples[n].ts >= cutoff
  {
    n := 0;
    if samples != [] && samples[0].ts < cutoff {
      var k := TrimDrops(samples[1..], cutoff);
      n := k + 1;
    }
  }

  lemma {:induction false} TrimSkips(samples: seq<Sample>, n: nat, cutoff: int)
    requires n <= |samples|
    requires forall i :: 0 <= i < n ==> samples[i].ts < cutoff
    ensures Trim(samples, cutoff) == Trim(samples[n..], cutoff)
  {
    if n > 0 {
      TrimSkips(samples[1..], n - 1, cutoff);
      assert samples[1..][n - 1..] == samples[n..];
    }
  }

  /** Trimming early, then pushing the newest sample and trimming again, is trimming the whole. */
  lemma TrimPush(h: seq<Sample>, n: nat, cutoff: int, later: int)
    requires n == |h| - 1 && cutoff <= later
    ensures Trim(Trim(h[..n], cutoff) + [h[n]], later) == Trim(h, later)
  {
    var k := TrimDrops(h[..n], cutoff);
    assert h[..n][k..] + [h[n]] == h[k..];
    TrimSkips(h, k, later);
  }

  /** Searching what is left back to `hi` is searching everything between `lo` and `hi`. */
  lemma {:induction false} SearchSplit(h: seq<Sample>, n: nat, lo: int, hi: int)
    requires n <= |h|
    requires forall i :: 0 <= i < n ==> h[i].ts < lo
    requires forall i :: n <= i < |h| ==> h[i].ts >= lo
    ensures LatestAtMost(h[n..], hi) == LatestIn(h, lo, hi)
  {
    if h != [] {
      var k := |h| - 1;
      if n == |h| {
        SearchSplit(h[..k], k, lo, hi);
        assert h[..k][k..] == [];
      } else {
        SearchSplit(h[..k], n, lo, hi);
        assert h[n..][..k - n] == h[..k][n..];
      }
    }
  }

  lemma ProductSign(r: real, v: real)
    requires v > 0.0
    ensures r > 0.0 <==> r * v > 0.0
  {
    if r <= 0.0 {
      assert r * v <= 0.0;
    }
  }

  lemma ReturnSign(price: real, ref: Option<real>)
    ensures Return(price, ref).Some? <==> ref.Some? && ref.value > 0.0
    ensures Return(price, ref).Some? ==> (Return(price, ref).value > 0.0 <==> price > ref.value)
  {
    if ref.Some? && ref.value > 0.0 {
      var r := (price - ref.value) / ref.value;
      assert r * ref.value == price - ref.value;
      ProductSign(r, ref.value);
    }
  }

  /** Recording one return records one move. */
  lemma PushMove(gains: seq<real>, moves: seq<bool>, ret: real, up: bool, n: nat)
    requires Positive(gains) == LastN(moves, n) && up == (ret > 0.0)
    ensures Positive(LastN(gains + [ret], n)) == LastN(moves + [up], n)
  {
    LastNPush(moves, up, n, n);
    assert Positive(LastN(gains + [ret], n)) == LastN(Positive(gains) + [up], n);
  }

  lemma TrimmedReference(h: seq<Sample>, horizonMs: int)
    requires h != [] && Ordered(h)
    ensures var ts := h[|h| - 1].ts;
            LatestAtMost(Trim(h, ts - 2 * horizonMs), ts - horizonMs) == Reference(h, horizonMs)
  {
    var ts := h[|h| - 1].ts;
    var lo := ts - 2 * horizonMs;
    var n := TrimDrops(h, lo);
    SearchSplit(h, n, lo, ts - horizonMs);
  }

  lemma RecordMoves(gains: seq<real>, h: seq<Sample>, horizonMs: int, ret: Option<real>, maxReturns: nat)
    requires h != [] && Positive(gains) == LastN(Moves(h[..|h| - 1], horizonMs), maxReturns)
    requires var ref := Reference(h, horizonMs);
             && (ret.Some? <==> ref.Some? && ref.value > 0.0)
             && (ret.Some? ==> (ret.value > 0.0 <==> h[|h| - 1].price > ref.value))
    ensures Positive(Record(gains, ret, maxReturns)) == LastN(Moves(h, horizonMs), maxReturns)
  {
    if ret.Some? {
      PushMove(gains, Moves(h[..|h| - 1], horizonMs), ret.value, ret.value > 0.0, maxReturns);
    }
  }

  /** The deque after one more sample. */
  lemma PricesKept(prices: seq<Sample>, h: seq<Sample>, n: nat, horizonMs: int)
    requires n == |h| - 1 && Ordered(h)
    requires n == 0 ==> prices == []
    requires n > 0 ==> prices == Trim(h[..n], h[n - 1].ts - 2 * horizonMs)
    ensures Trim(prices + [h[n]], h[n].ts - 2 * horizonMs) == Trim(h, h[n].ts - 2 * horizonMs)
  {
    if n == 0 {
      assert prices + [h[n]] == h;
    } else {
      TrimPush(h, n, h[n - 1].ts - 2 * horizonMs, h[n].ts - 2 * horizonMs);
    }
  }

  /** One update keeps the summary. */
  lemma UpdateSummarises(m: Model, h: seq<Sample>, horizonMs: int, maxReturns: nat)
    requires h != [] && Ordered(h) && Summarises(m, h[..|h| - 1], horizonMs, maxReturns)
    ensures Summarises(UpdateModel(m, horizonMs, maxReturns, h[|h| - 1]), h, horizonMs, maxReturns)
  {
    var n := |h| - 1;
    PricesKept(m.prices, h, n, horizonMs);
    TrimmedReference(h, horizonMs);
    var ref := Reference(h, horizonMs);
    ReturnSign(h[n].price, ref);
    RecordMoves(m.gains, h, horizonMs, Return(h[n].price, ref), maxReturns);
  }

  function Replay(h: seq<Sample>, horizonMs: int, maxReturns: nat): Model {
    if h == [] then Model([], [])
    else UpdateModel(Replay(h[..|h| - 1], horizonMs, maxReturns), horizonMs, maxReturns, h[|h| - 1])
  }

  lemma {:induction false} ReplaySummarises(h: seq<Sample>, horizonMs: int, maxReturns: nat)
    requires Ordered(h)
    ensures Summarises(Replay(h, horizonMs, maxReturns), h, horizonMs, maxReturns)
  {
    if h == [] {
      assert Positive([]) == [];
    } else {
      ReplaySummarises(h[..|h| - 1], horizonMs, maxReturns);
      UpdateSummarises(Replay(h[..|h| - 1], horizonMs, maxReturns), h, horizonMs, maxReturns);
    }
  }

  /** Forgetting old samples and returns is not observable: on nondecreasing sample times the
      model's probability is the reference's. */
  lemma {:induction false} ModelIsReference(h: seq<Sample>, horizonMs: int, warmup: int, maxReturns: nat)
    requires Ordered(h)
    ensures UpProb(Replay(h, horizonMs, maxReturns), warmup) == FairUp(h, horizonMs, warmup, maxReturns)
  {
    ReplaySummarises(h, horizonMs, maxReturns);
  }

  class RollingReturnModel {
    const horizonMs: int
    const warmupSamples: int
    const maxReturns: nat
    var prices: seq<Sample>
    var gains: seq<real>

    function View(): Model
      reads this
    {
      Model(prices, gains)
    }

    constructor (horizonSec: int, warmupSamples: int, maxReturns: nat)
      ensures View() == Model([], [])
      ensures this.horizonMs == horizonSec * 1000
      ensures this.warmupSamples == warmupSamples && this.maxReturns == maxReturns
    {
      this.horizonMs, this.warmupSamples, this.maxReturns := horizonSec * 1000, warmupSamples, maxReturns;
      prices, gains := [], [];
    }

    method PopStale(cutoff: int)
      modifies this
      ensures prices == Trim(old(prices), cutoff) && gains == old(gains)
    {
      while prices != [] && prices[0].ts < cutoff
        invariant Trim(prices, cutoff) == Trim(old(prices), cutoff) && gains == old(gains)
        decreases |prices|
      {
        prices := prices[1..];
      }
    }

    method FindReference(targetTs: int) returns (refPrice: Option<real>)
      ensures refPrice == LatestAtMost(prices, targetTs)
    {
      refPrice := None;
      var i := |prices|;
      assert prices[..i] == prices;
      while i > 0
        invariant 0 <= i <= |prices|
        invariant LatestAtMost(prices[..i], targetTs) == LatestAtMost(prices, targetTs)
      {
        assert prices[..i][..i - 1] == prices[..i - 1];
        if prices[i - 1].ts <= targetTs {
          return Some(prices[i - 1].price);
        }
        i := i - 1;
      }
    }

    method Append(ret: real)
      requires |gains| <= maxReturns
      modifies this
      ensures gains == LastN(old(gains) + [ret], maxReturns) && prices == old(prices)
    {
      gains := gains + [ret];
      while |gains| > maxReturns
        invariant prices == old(prices)
        invariant LastN(gains, maxReturns) == LastN(old(gains) + [ret], maxReturns)
        invariant |gains| >= maxReturns || gains == old(gains) + [ret]
        decreases |gains|
      {
        gains := gains[1..];
      }
    }

    method Update(tsMs: int, price: real)
      requires |gains| <= maxReturns
      modifies this
      ensures View() == UpdateModel(old(View()), horizonMs, maxReturns, Sample(tsMs, price))
      ensures |gains| <= maxReturns
    {
      prices := prices + [Sample(tsMs, price)];
      PopStale(tsMs - horizonMs * 2);
      var refPrice := FindReference(tsMs - horizonMs);
      if refPrice.Some? && refPrice.value > 0.0 {
        Append((price - refPrice.value) / refPrice.value);
      }
    }

    method FairUpProb() returns (p: Option<real>)
      ensures p == UpProb(View(), warmupSamples)
    {
      if |gains| < warmupSamples {
        return None;
      }
      var up := Ups(Positive(gains));
      return if gains != [] then Some(up as real / |gains| as real) else None;
    }
  }
}
