/** The sliding-window rate limiter (risk/rules.py). */
module RateLimiting {
  const WINDOW_MS: int := 60_000

  ghost predicate Nondecreasing(ts: seq<int>) {
    forall i, j :: 0 <= i <= j < |ts| ==> ts[i] <= ts[j]
  }

  // ----- admission choices over a whole request history -----

  /** How many admitted requests fall in the closed interval from `lo` to `hi`. */
  function Admitted(ts: seq<int>, choice: seq<bool>, lo: int, hi: int): nat
    requires |ts| == |choice|
  {
    if ts == [] then 0
    else
      var n := |ts| - 1;
      Admitted(ts[..n], choice[..n], lo, hi) + (if choice[n] && lo <= ts[n] <= hi then 1 else 0)
  }

  function Count(choice: seq<bool>): nat {
    if choice == [] then 0
    else Count(choice[..|choice| - 1]) + (if choice[|choice| - 1] then 1 else 0)
  }

  /** Admissions in the closed minute that starts at `lo`. */
  function InMinute(ts: seq<int>, choice: seq<bool>, lo: int): nat
    requires |ts| == |choice|
  {
    Admitted(ts, choice, lo, lo + 60_000)
  }

  /** The rate limit: no closed window of one minute holds more than `max` admissions. */
  ghost predicate Bounded(ts: seq<int>, choice: seq<bool>, max: int)
    requires |ts| == |choice|
  {
    forall lo :: InMinute(ts, choice, lo) <= if max < 0 then 0 else max
  }

  /** Reference: admit whenever fewer than `max` requests were admitted in the last minute. */
  function Greedy(ts: seq<int>, max: int): (choice: seq<bool>)
    ensures |choice| == |ts|
  {
    if ts == [] then []
    else
      var past, now := ts[..|ts| - 1], ts[|ts| - 1];
      var before := Greedy(past, max);
      before + [Admitted(past, before, now - WINDOW_MS, now) < max]
  }

  lemma {:induction false} AdmittedWiden(ts: seq<int>, choice: seq<bool>, lo: int, hi: int, lo': int, hi': int)
    requires |ts| == |choice|
    requires forall i :: 0 <= i < |ts| && lo <= ts[i] <= hi ==> lo' <= ts[i] <= hi'
    ensures Admitted(ts, choice, lo, hi) <= Admitted(ts, choice, lo', hi')
  {
    if ts != [] {
      var n := |ts| - 1;
      AdmittedWiden(ts[..n], choice[..n], lo, hi, lo', hi');
    }
  }

  /** The limiter keeps its limit in every window, wherever the window starts. */
  lemma {:induction false} GreedyBounded(ts: seq<int>, max: int)
    requires Nondecreasing(ts)
    ensures Bounded(ts, Greedy(ts, max), max)
  {
    if ts != [] {
      var n := |ts| - 1;
      var past, before := ts[..n], Greedy(ts[..n], max);
      GreedyBounded(past, max);
      assert Greedy(ts, max)[..n] == before;
      forall lo ensures InMinute(ts, Greedy(ts, max), lo) <= if max < 0 then 0 else max {
        assert InMinute(past, before, lo) <= if max < 0 then 0 else max;
        if lo <= ts[n] <= lo + WINDOW_MS {
          AdmittedWiden(past, before, lo, lo + WINDOW_MS, ts[n] - WINDOW_MS, ts[n]);
        }
      }
    }
  }

  /** Admissions before the window plus those inside it. */
  lemma {:induction false} SplitCount(ts: seq<int>, choice: seq<bool>, j: nat, lo: int, hi: int)
    requires |ts| == |choice| && j <= |ts|
    requires forall i :: 0 <= i < j ==> ts[i] < lo
    requires forall i :: j <= i < |ts| ==> lo <= ts[i] <= hi
    ensures Count(choice) == Count(choice[..j]) + Admitted(ts, choice, lo, hi)
  {
    if ts != [] {
      var n := |ts| - 1;
      if j == |ts| {
        SplitCount(ts[..n], choice[..n], n, lo, hi);
        assert choice[..j] == choice && choice[..n][..n] == choice[..n];
      } else {
        SplitCount(ts[..n], choice[..n], j, lo, hi);
        assert choice[..n][..j] == choice[..j];
      }
    }
  }

  lemma {:induction false} BoundedPrefix(ts: seq<int>, choice: seq<bool>, max: int, n: nat)
    requires |ts| == |choice| && n <= |ts| && Bounded(ts, choice, max)
    ensures Bounded(ts[..n], choice[..n], max)
    decreases |ts| - n
  {
    if n == |ts| {
      assert ts[..n] == ts && choice[..n] == choice;
    } else {
      BoundedPrefix(ts, choice, max, n + 1);
      assert ts[..n + 1][..n] == ts[..n] && choice[..n + 1][..n] == choice[..n];
      forall lo ensures InMinute(ts[..n], choice[..n], lo) <= if max < 0 then 0 else max {
        assert InMinute(ts[..n + 1], choice[..n + 1], lo) <= if max < 0 then 0 else max;
      }
    }
  }

  lemma {:induction false} GreedyPrefix(ts: seq<int>, max: int, n: nat)
    requires n <= |ts|
    ensures Greedy(ts, max)[..n] == Greedy(ts[..n], max)
    decreases |ts| - n
  {
    if n == |ts| {
      assert ts[..n] == ts;
    } else {
      GreedyPrefix(ts, max, n + 1);
      assert ts[..n + 1][..n] == ts[..n];
    }
  }

  lemma WindowStart(ts: seq<int>, lo: int) returns (j: nat)
    requires Nondecreasing(ts)
    ensures j <= |ts|
    ensures forall i :: 0 <= i < j ==> ts[i] < lo
    ensures forall i :: j <= i < |ts| ==> lo <= ts[i]
  {
    j := 0;
    while j < |ts| && ts[j] < lo
      invariant j <= |ts|
      invariant forall i :: 0 <= i < j ==> ts[i] < lo
    {
      j := j + 1;
    }
  }

  /** The exchange step: when greedy refuses the newest request it already holds `max` in the
      window, so a rival that was not ahead before the window is not ahead now. */
  lemma RefusalCostsNothing(ts: seq<int>, greedy: seq<bool>, other: seq<bool>, max: int, j: nat)
    requires |ts| == |greedy| == |other| && j < |ts|
    requires var now := ts[|ts| - 1];
             (forall i :: 0 <= i < j ==> ts[i] < now - WINDOW_MS)
             && (forall i :: j <= i < |ts| ==> now - WINDOW_MS <= ts[i] <= now)
    requires InMinute(ts, other, ts[|ts| - 1] - WINDOW_MS) <= (if max < 0 then 0 else max)
    requires InMinute(ts, greedy, ts[|ts| - 1] - WINDOW_MS) >= max
    requires Count(other[..j]) <= Count(greedy[..j])
    ensures Count(other) <= Count(greedy)
  {
    var now := ts[|ts| - 1];
    SplitCount(ts, other, j, now - WINDOW_MS, now);
    SplitCount(ts, greedy, j, now - WINDOW_MS, now);
  }

  /** Greedy stays ahead: any other way of admitting the same requests that also keeps the limit
      has admitted at most as many. */
  lemma {:induction false} GreedyAhead(ts: seq<int>, other: seq<bool>, max: int)
    requires Nondecreasing(ts) && |ts| == |other| && Bounded(ts, other, max)
    ensures Count(other) <= Count(Greedy(ts, max))
    decreases |ts|, 0
  {
    if ts != [] {
      var n := |ts| - 1;
      var now, greedy := ts[n], Greedy(ts, max);
      if other[n] && !greedy[n] {
        var j := WindowStart(ts, now - WINDOW_MS);
        GreedyStaysAhead(ts, other, max, j);
        assert greedy[..n] == Greedy(ts[..n], max);
        RefusalCostsNothing(ts, greedy, other, max, j);
      } else {
        GreedyStaysAhead(ts, other, max, n);
      }
    }
  }

  /** The same on every prefix: at no moment is a rival ahead. */
  lemma {:induction false} GreedyStaysAhead(ts: seq<int>, other: seq<bool>, max: int, n: nat)
    requires Nondecreasing(ts) && |ts| == |other| && Bounded(ts, other, max) && n <= |ts|
    ensures Count(other[..n]) <= Count(Greedy(ts, max)[..n])
    decreases n, 1
  {
    BoundedPrefix(ts, other, max, n);
    GreedyPrefix(ts, max, n);
    GreedyAhead(ts[..n], other[..n], max);
  }

  // ----- the limiter itself -----

  /** Popping from the front while the entry is older than `cutoff`. */
  function Evict(stamps: seq<int>, cutoff: int): seq<int> {
    if stamps != [] && stamps[0] < cutoff then Evict(stamps[1..], cutoff) else stamps
  }

  /** What one call does to the deque, and its answer. */
  function Admit(stamps: seq<int>, max: int, now: int): (seq<int>, bool) {
    var recent := Evict(stamps, now - WINDOW_MS);
    if |recent| >= max then (recent, false) else (recent + [now], true)
  }

  class RateLimiter {
    const maxPerMin: int
    var timestamps: seq<int>

    constructor (maxPerMin: int)
      ensures this.maxPerMin == maxPerMin && timestamps == []
    {
      this.maxPerMin, timestamps := maxPerMin, [];
    }

    method Allow(nowMs: int) returns (allowed: bool)
      modifies this
      ensures (timestamps, allowed) == Admit(old(timestamps), maxPerMin, nowMs)
    {
      while timestamps != [] && nowMs - timestamps[0] > WINDOW_MS
        invariant Evict(timestamps, nowMs - WINDOW_MS) == Evict(old(timestamps), nowMs - WINDOW_MS)
        decreases |timestamps|
      {
        timestamps := timestamps[1..];
      }
      if |timestamps| >= maxPerMin {
        return false;
      }
      timestamps := timestamps + [nowMs];
      return true;
    }
  }

  /** The limiter called on each request in turn: its deque and its answers. */
  function Replay(ts: seq<int>, max: int): (r: (seq<int>, seq<bool>))
    ensures |r.1| == |ts|
  {
    if ts == [] then ([], [])
    else
      var (stamps, answers) := Replay(ts[..|ts| - 1], max);
      var (stamps', answer) := Admit(stamps, max, ts[|ts| - 1]);
      (stamps', answers + [answer])
  }

  function AdmittedTimes(ts: seq<int>, choice: seq<bool>): seq<int>
    requires |ts| == |choice|
  {
    if ts == [] then []
    else
      var n := |ts| - 1;
      if choice[n] then AdmittedTimes(ts[..n], choice[..n]) + [ts[n]] else AdmittedTimes(ts[..n], choice[..n])
  }

  /** Evicting early never changes what a later, higher cutoff leaves. */
  lemma {:induction false} EvictAgain(stamps: seq<int>, cutoff: int, later: int)
    requires cutoff <= later
    ensures Evict(Evict(stamps, cutoff), later) == Evict(stamps, later)
  {
    if stamps != [] {
      EvictAgain(stamps[1..], cutoff, later);
    }
  }

  /** A fresh entry survives at the end. */
  lemma {:induction false} EvictPush(stamps: seq<int>, t: int, cutoff: int)
    requires t >= cutoff
    ensures Evict(stamps + [t], cutoff) == Evict(stamps, cutoff) + [t]
  {
    if stamps != [] {
      EvictPush(stamps[1..], t, cutoff);
      assert (stamps + [t])[1..] == stamps[1..] + [t];
    }
  }

  /** When even the newest entry is old, nothing survives. */
  lemma {:induction false} EvictAll(stamps: seq<int>, cutoff: int)
    requires forall i :: 0 <= i < |stamps| ==> stamps[i] < cutoff
    ensures Evict(stamps, cutoff) == []
  {
    if stamps != [] {
      EvictAll(stamps[1..], cutoff);
    }
  }

  lemma {:induction false} AdmittedTimesBelow(ts: seq<int>, choice: seq<bool>, hi: int)
    requires |ts| == |choice|
    requires forall i :: 0 <= i < |ts| ==> ts[i] <= hi
    ensures forall i :: 0 <= i < |AdmittedTimes(ts, choice)| ==> AdmittedTimes(ts, choice)[i] <= hi
  {
    if ts != [] {
      AdmittedTimesBelow(ts[..|ts| - 1], choice[..|ts| - 1], hi);
    }
  }

  /** On ordered requests, the deque trimmed at `lo` has one entry per admission from `lo` on. */
  lemma {:induction false} RecentCount(ts: seq<int>, choice: seq<bool>, lo: int, hi: int)
    requires |ts| == |choice| && Nondecreasing(ts)
    requires forall i :: 0 <= i < |ts| ==> ts[i] <= hi
    ensures |Evict(AdmittedTimes(ts, choice), lo)| == Admitted(ts, choice, lo, hi)
  {
    if ts != [] {
      var n := |ts| - 1;
      RecentCount(ts[..n], choice[..n], lo, hi);
      AdmittedTimesBelow(ts[..n], choice[..n], ts[n]);
      if ts[n] >= lo {
        EvictPush(AdmittedTimes(ts[..n], choice[..n]), ts[n], lo);
      } else {
        EvictAll(AdmittedTimes(ts[..n], choice[..n]), lo);
        EvictAll(AdmittedTimes(ts, choice), lo);
      }
    }
  }

  /** What the deque has to be after the requests `ts`. */
  function RecentAdmissions(ts: seq<int>, choice: seq<bool>): seq<int>
    requires |ts| == |choice|
  {
    if ts == [] then [] else Evict(AdmittedTimes(ts, choice), ts[|ts| - 1] - WINDOW_MS)
  }

  /** One call on an up-to-date deque: the greedy answer, and the deque up to date again. */
  lemma NextCall(ts: seq<int>, choice: seq<bool>, max: int)
    requires ts != [] && |ts| == |choice| && Nondecreasing(ts)
    requires var n := |ts| - 1;
             choice[n] == (Admitted(ts[..n], choice[..n], ts[n] - WINDOW_MS, ts[n]) < max)
    ensures var n := |ts| - 1;
            Admit(RecentAdmissions(ts[..n], choice[..n]), max, ts[n]) == (RecentAdmissions(ts, choice), choice[n])
  {
    var n := |ts| - 1;
    var times, lo := AdmittedTimes(ts[..n], choice[..n]), ts[n] - WINDOW_MS;
    if n > 0 {
      EvictAgain(times, ts[n - 1] - WINDOW_MS, lo);
    }
    RecentCount(ts[..n], choice[..n], lo, ts[n]);
    EvictPush(times, ts[n], lo);
  }

  /** On nondecreasing request times the limiter's answers are the greedy admissions. */
  lemma {:induction false} LimiterIsGreedy(ts: seq<int>, max: int)
    requires Nondecreasing(ts)
    ensures Replay(ts, max) == (RecentAdmissions(ts, Greedy(ts, max)), Greedy(ts, max))
  {
    if ts != [] {
      var n := |ts| - 1;
      LimiterIsGreedy(ts[..n], max);
      assert Greedy(ts, max)[..n] == Greedy(ts[..n], max);
      NextCall(ts, Greedy(ts, max), max);
    }
  }

  /** The limiter keeps its limit in every closed minute, and no other way of answering the same
      requests that keeps it has admitted more at any point. */
  lemma LimiterIsOptimal(ts: seq<int>, other: seq<bool>, max: int, n: nat)
    requires Nondecreasing(ts) && |ts| == |other| && n <= |ts|
    ensures Bounded(ts, Replay(ts, max).1, max)
    ensures Bounded(ts, other, max) ==> Count(other[..n]) <= Count(Replay(ts, max).1[..n])
  {
    LimiterIsGreedy(ts, max);
    GreedyBounded(ts, max);
    if Bounded(ts, other, max) {
      GreedyStaysAhead(ts, other, max, n);
    }
  }

  lemma ReplayPush(past: seq<int>, now: int, max: int)
    ensures Replay(past + [now], max)
            == (Admit(Replay(past, max).0, max, now).0, Replay(past, max).1 + [Admit(Replay(past, max).0, max, now).1])
  {
    assert (past + [now])[..|past|] == past;
  }

  /** The clock assumption is needed: after a jump forward and back, the limit of two is exceeded
      in the minute from 0 to 60000. */
  lemma ClockMustNotRunBack()
    ensures Replay([0, 0, 70_000, 5_000], 2).1 == [true, true, true, true]
    ensures InMinute([0, 0, 70_000, 5_000], [true, true, true, true], 0) == 3
  {
    ReplayPush([], 0, 2);
    assert [] + [0] == [0] && [] + [true] == [true];
    ReplayPush([0], 0, 2);
    assert [0] + [0] == [0, 0] && [true] + [true] == [true, true];
    assert Replay([0, 0], 2) == ([0, 0], [true, true]);
    ReplayPush([0, 0], 70_000, 2);
    assert [0, 0][1..] == [0] && [0][1..] == [] && [] + [70_000] == [70_000];
    assert Evict([0, 0], 10_000) == [];
    assert [0, 0] + [70_000] == [0, 0, 70_000] && [true, true] + [true] == [true, true, true];
    assert Replay([0, 0, 70_000], 2) == ([70_000], [true, true, true]);
    ReplayPush([0, 0, 70_000], 5_000, 2);
    assert [0, 0, 70_000] + [5_000] == [0, 0, 70_000, 5_000];
    CountBackwards();
  }

  lemma CountBackwards()
    ensures InMinute([0, 0, 70_000, 5_000], [true, true, true, true], 0) == 3
  {
    var t, a := [0, 0, 70_000, 5_000], [true, true, true, true];
    assert t[..3][..2] == [0, 0] && [0, 0][..1] == [0] && a[..3][..2] == [true, true] && [true, true][..1] == [true];
    assert Admitted(t[..3][..2], a[..3][..2], 0, WINDOW_MS) == 2;
  }
}
