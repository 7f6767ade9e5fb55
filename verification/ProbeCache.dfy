/** Readiness results and the cache of probes (polymarket/contract.py, polymarket/clob_readiness.py). */
module ProbeCaching {
  import opened Wrappers

  datatype Status = Ready | NotReady | RetryableError | PermError

  datatype Reason =
    | Fine | NoOrderbook | RateLimited | TimedOut | ServerError | InvalidPayload
    | UnknownError | InvalidTokenId | NotFoundUnknown

  datatype Probe = Probe(status: Status, reason: Reason)

  /** Seconds a result stays valid. */
  function TtlFor(p: Probe): int {
    if p.status == Ready then 1800
    else if p.status == RetryableError then 30
    else if p.reason == NoOrderbook then 300
    else if p.status == NotReady then 300
    else if p.status == PermError then 3600
    else 60
  }

  /** Half an hour for a token that is ready, half a minute for an error worth retrying, five minutes for
      a token that is not ready or has no order book, an hour for a permanent error. */
  lemma TtlIs(reason: Reason)
    ensures TtlFor(Probe(Ready, reason)) == 1800 && TtlFor(Probe(RetryableError, reason)) == 30
    ensures TtlFor(Probe(NotReady, reason)) == 300
    ensures TtlFor(Probe(PermError, reason)) == if reason == NoOrderbook then 300 else 3600
  {
  }

  datatype Entry = Entry(expiry: real, result: Probe)

  type Entries = map<string, Entry>

  function Put(c: Entries, token: string, at: real, p: Probe): Entries {
    c[token := Entry(at + TtlFor(p) as real, p)]
  }

  /** A lookup also drops the entry it finds expired. */
  function Get(c: Entries, token: string, now: real): (Entries, Option<Probe>) {
    if token !in c then (c, None)
    else if now < c[token].expiry then (c, Some(c[token].result))
    else (c - {token}, None)
  }

  class ProbeCache {
    var entries: Entries

    constructor ()
      ensures entries == map[]
    {
      entries := map[];
    }

    method Add(token: string, at: real, p: Probe)
      modifies this
      ensures entries == Put(old(entries), token, at, p)
    {
      var expiry := at + TtlFor(p) as real;
      entries := entries[token := Entry(expiry, p)];
    }

    method Lookup(token: string, now: real) returns (r: Option<Probe>)
      modifies this
      ensures (entries, r) == Get(old(entries), token, now)
    {
      if token in entries {
        var entry := entries[token];
        if now < entry.expiry {
          return Some(entry.result);
        }
        entries := entries - {token};
      }
      return None;
    }
  }

  // ----- whole histories -----

  datatype Event = Stored(token: string, at: real, result: Probe) | Asked(token: string, at: real)

  function After(events: seq<Event>): Entries {
    if events == [] then map[]
    else
      var c := After(events[..|events| - 1]);
      match events[|events| - 1]
      case Stored(token, at, p) => Put(c, token, at, p)
      case Asked(token, at) => Get(c, token, at).0
  }

  /** The latest result stored for a token, and when. */
  function LatestStored(events: seq<Event>, token: string): Option<(real, Probe)> {
    if events == [] then None
    else
      var last := events[|events| - 1];
      if last.Stored? && last.token == token then Some((last.at, last.result))
      else LatestStored(events[..|events| - 1], token)
  }

  /** Reference answer: the latest stored result while it is younger than its own time to live. */
  function Answer(events: seq<Event>, token: string, now: real): Option<Probe> {
    match LatestStored(events, token)
    case None => None
    case Some((at, p)) => if now < at + TtlFor(p) as real then Some(p) else None
  }

  ghost predicate Timely(events: seq<Event>, now: real) {
    && (forall i, j :: 0 <= i <= j < |events| ==> events[i].at <= events[j].at)
    && (events != [] ==> events[|events| - 1].at <= now)
  }

  /** A cached entry is the latest stored result; one that is absent was never stored or has
      expired by `now`. */
  ghost predicate Tracks(c: Entries, events: seq<Event>, token: string, now: real) {
    match LatestStored(events, token)
    case None => token !in c
    case Some((at, p)) =>
      if token in c then c[token] == Entry(at + TtlFor(p) as real, p) else at + TtlFor(p) as real <= now
  }

  lemma {:induction false} CacheTracks(events: seq<Event>, token: string, now: real)
    requires Timely(events, now)
    ensures Tracks(After(events), events, token, now)
  {
    if events != [] {
      var n := |events| - 1;
      CacheTracks(events[..n], token, if n == 0 then now else events[n].at);
    }
  }

  /** Whatever was stored and asked before, in time order, a lookup returns exactly the latest
      unexpired result for the token; dropping expired entries is never observable. */
  lemma {:induction false} CacheAnswers(events: seq<Event>, token: string, now: real)
    requires Timely(events, now)
    ensures Get(After(events), token, now).1 == Answer(events, token, now)
  {
    CacheTracks(events, token, now);
  }
}
