/** Probing through the cache (polymarket/clob_readiness.py), and what that means for the selection. */
module ProbeSessions {
  import opened Wrappers
  import opened ProbeCaching
  import opened ClobSelection

  /** One probe: when it asks, when a network answer would be stored, and what that answer would be
      after its retries. */
  datatype Call = Call(token: string, at: real, done: real, answer: Probe)

  /** A cached result, or else the network's, which is then stored. */
  function ProbeOnce(c: Entries, call: Call): (Entries, Probe) {
    var (c', cached) := Get(c, call.token, call.at);
    match cached
    case Some(p) => (c', p)
    case None => (Put(c', call.token, call.done, call.answer), call.answer)
  }

  class Prober {
    const cache: ProbeCache

    constructor (cache: ProbeCache)
      ensures this.cache == cache
    {
      this.cache := cache;
    }

    method Readiness(call: Call) returns (p: Probe)
      modifies cache
      ensures (cache.entries, p) == ProbeOnce(old(cache.entries), call)
    {
      var cached := cache.Lookup(call.token, call.at);
      if cached.Some? {
        return cached.value;
      }
      cache.Add(call.token, call.done, call.answer);
      return call.answer;
    }
  }

  /** The cache after a history of probes, from whatever it held before. */
  function Session(c: Entries, calls: seq<Call>): Entries {
    if calls == [] then c else ProbeOnce(Session(c, calls[..|calls| - 1]), calls[|calls| - 1]).0
  }

  function ResultAt(c: Entries, calls: seq<Call>, k: nat): Probe
    requires k < |calls|
  {
    ProbeOnce(Session(c, calls[..k]), calls[k]).1
  }

  /** The k-th probe went to the network. */
  predicate Fresh(c: Entries, calls: seq<Call>, k: nat)
    requires k < |calls|
  {
    Get(Session(c, calls[..k]), calls[k].token, calls[k].at).1.None?
  }

  ghost predicate InOrder(calls: seq<Call>) {
    && (forall i :: 0 <= i < |calls| ==> calls[i].at <= calls[i].done)
    && (forall i, j :: 0 <= i < j < |calls| ==> calls[i].done <= calls[j].at)
  }

  /** A fresh result stays in the cache until it is too old. */
  lemma {:induction false} KeptUntilStale(c: Entries, calls: seq<Call>, i: nat, k: nat)
    requires InOrder(calls) && i < k < |calls| && Fresh(c, calls, i)
    requires calls[k].at < calls[i].done + TtlFor(calls[i].answer) as real
    ensures var entries := Session(c, calls[..k]);
            && calls[i].token in entries
            && entries[calls[i].token] == Entry(calls[i].done + TtlFor(calls[i].answer) as real, calls[i].answer)
    decreases k
  {
    assert calls[..k][..k - 1] == calls[..k - 1];
    if i < k - 1 {
      assert calls[k - 1].at <= calls[k - 1].done <= calls[k].at;
      KeptUntilStale(c, calls, i, k - 1);
    }
  }

  /** While a fresh result is younger than its time to live, every probe of its token returns it, and
      none goes to the network. */
  lemma {:induction false} SameTokenSameResult(c: Entries, calls: seq<Call>, i: nat, k: nat)
    requires InOrder(calls) && i < k < |calls| && Fresh(c, calls, i) && calls[k].token == calls[i].token
    requires calls[k].at < calls[i].done + TtlFor(calls[i].answer) as real
    ensures ResultAt(c, calls, k) == ResultAt(c, calls, i) == calls[i].answer && !Fresh(c, calls, k)
  {
    KeptUntilStale(c, calls, i, k);
  }

  // ----- the selection, probing through the cache -----

  /** What the network would answer, and when, at each attempt of a selection. */
  datatype Network = Network(at: nat -> real, done: nat -> real, answer: nat -> Probe)

  function CallAt(net: Network, k: nat, token: string): Call {
    Call(token, net.at(k), net.done(k), net.answer(k))
  }

  /** The cache after the first `k` attempts; a candidate whose tokens do not parse is not probed. */
  function CacheAfter(c: Entries, ranked: seq<Market>, net: Network, k: nat): Entries
    requires k <= |ranked|
  {
    if k == 0 then c
    else
      var before := CacheAfter(c, ranked, net, k - 1);
      match ParsedTokens(ranked[k - 1])
      case Err(_) => before
      case Ok((yes, _)) => ProbeOnce(before, CallAt(net, k - 1, yes)).0
  }

  /** The prober that a selection over `ranked` uses. */
  function CachedProber(c: Entries, ranked: seq<Market>, net: Network): ClobSelection.Prober {
    (k: nat, token: string) =>
      if k < |ranked| then ProbeOnce(CacheAfter(c, ranked, net, k), CallAt(net, k, token)).1 else net.answer(k)
  }

  ghost predicate NetworkInOrder(net: Network) {
    && (forall k: nat :: net.at(k) <= net.done(k))
    && (forall i: nat, k: nat :: i < k ==> net.done(i) <= net.at(k))
  }

  /** Attempt `i` asked the network for the YES token of its candidate. */
  predicate Asked(c: Entries, ranked: seq<Market>, net: Network, i: nat)
    requires i < |ranked|
  {
    && ParsedTokens(ranked[i]).Ok?
    && Get(CacheAfter(c, ranked, net, i), ParsedTokens(ranked[i]).value.0, net.at(i)).1.None?
  }

  lemma {:induction false} CacheKeeps(c: Entries, ranked: seq<Market>, net: Network, i: nat, k: nat)
    requires NetworkInOrder(net) && i < k < |ranked| && Asked(c, ranked, net, i)
    requires net.at(k) < net.done(i) + TtlFor(net.answer(i)) as real
    ensures var entries, token := CacheAfter(c, ranked, net, k), ParsedTokens(ranked[i]).value.0;
            token in entries && entries[token] == Entry(net.done(i) + TtlFor(net.answer(i)) as real, net.answer(i))
    decreases k
  {
    if i < k - 1 {
      assert net.at(k - 1) <= net.done(k - 1) <= net.at(k);
      CacheKeeps(c, ranked, net, i, k - 1);
    }
  }

  /** Two candidates with one YES token see one result while it is remembered; so a candidate whose
      token has just failed is not selected under another market either. */
  lemma {:induction false} DuplicateTokenSharesResult(c: Entries, ranked: seq<Market>, net: Network, i: nat, k: nat)
    requires NetworkInOrder(net) && i < k < |ranked| && Asked(c, ranked, net, i)
    requires ParsedTokens(ranked[k]).Ok? && ParsedTokens(ranked[k]).value.0 == ParsedTokens(ranked[i]).value.0
    requires net.at(k) < net.done(i) + TtlFor(net.answer(i)) as real
    ensures var probe, token := CachedProber(c, ranked, net), ParsedTokens(ranked[i]).value.0;
            probe(k, token) == probe(i, token) == net.answer(i)
    ensures Works(ranked[k], k, CachedProber(c, ranked, net)) == Works(ranked[i], i, CachedProber(c, ranked, net))
  {
    CacheKeeps(c, ranked, net, i, k);
    var probe, token := CachedProber(c, ranked, net), ParsedTokens(ranked[i]).value.0;
    assert probe(i, token) == ProbeOnce(CacheAfter(c, ranked, net, i), CallAt(net, i, token)).1;
    assert probe(k, token) == ProbeOnce(CacheAfter(c, ranked, net, k), CallAt(net, k, token)).1;
  }

  /** For a whole selection: the selected market is never one whose token an earlier attempt found not
      ready on the network, within that answer's time to live. */
  lemma {:induction false} NoRememberedFailure(
      s: Selection, markets: seq<Market>, now: real, maxProbes: int, c: Entries, net: Network, i: nat)
    requires NetworkInOrder(net) && s.market.Some? && i < s.probesAttempted - 1
    requires IsSelection(s, markets, now, maxProbes, CachedProber(c, Ranked(markets, now), net))
    requires Asked(c, Ranked(markets, now), net, i)
    requires net.at(s.probesAttempted - 1) < net.done(i) + TtlFor(net.answer(i)) as real
    ensures s.token != Some(ParsedTokens(Ranked(markets, now)[i]).value.0)
  {
    var ranked, last := Ranked(markets, now), s.probesAttempted - 1;
    if ParsedTokens(ranked[last]).value.0 == ParsedTokens(ranked[i]).value.0 {
      DuplicateTokenSharesResult(c, ranked, net, i, last);
    }
  }
}
