/** The rate limiter on a wall clock: it keeps its limit as long as the clock never goes forward past
    a request's minute and then back into it. */
module RateClock {
  import opened RateLimiting

  /** Once a request is more than a minute old, no later request comes within a minute of it. */
  ghost predicate NoRebound(ts: seq<int>) {
    forall i, k, j :: 0 <= i < k < j < |ts| && ts[k] - ts[i] > WINDOW_MS ==> ts[j] - ts[i] > WINDOW_MS
  }

  lemma ForwardHasNoRebound(ts: seq<int>)
    requires Nondecreasing(ts)
    ensures NoRebound(ts)
  {
    forall i, k, j | 0 <= i < k < j < |ts| && ts[k] - ts[i] > WINDOW_MS ensures ts[j] - ts[i] > WINDOW_MS {
      assert ts[k] <= ts[j];
    }
  }

  /** A clock that goes back by at most `step` does not rebound, as long as no later request follows an
      earlier one by more than a minute and at most a minute and `step`. */
  lemma SmallStepsBack(ts: seq<int>, step: nat)
    requires forall k, j :: 0 <= k < j < |ts| ==> ts[j] >= ts[k] - step
    requires forall i, k :: 0 <= i < k < |ts| ==> !(WINDOW_MS < ts[k] - ts[i] <= WINDOW_MS + step)
    ensures NoRebound(ts)
  {
    forall i, k, j | 0 <= i < k < j < |ts| && ts[k] - ts[i] > WINDOW_MS ensures ts[j] - ts[i] > WINDOW_MS {
      assert ts[j] >= ts[k] - step;
    }
  }

  // ----- which admissions the deque still holds -----

  ghost predicate Expired(ts: seq<int>, i: nat) {
    exists k :: i < k < |ts| && ts[k] - ts[i] > WINDOW_MS
  }

  /** The deque holds the requests `held`, and every other admitted request has expired. */
  ghost predicate Holds(stamps: seq<int>, held: seq<nat>, ts: seq<int>, admitted: seq<bool>) {
    && |held| == |stamps| && |admitted| <= |ts|
    && (forall q :: 0 <= q < |held| ==> held[q] < |admitted| && stamps[q] == ts[held[q]])
    && (forall i: nat :: i < |admitted| && admitted[i] && i !in held ==> Expired(ts, i))
  }

  lemma {:induction false} EvictDrops(stamps: seq<int>, cutoff: int) returns (n: nat)
    ensures n <= |stamps| && Evict(stamps, cutoff) == stamps[n..]
    ensures forall q :: 0 <= q < n ==> stamps[q] < cutoff
  {
    n := 0;
    if stamps != [] && stamps[0] < cutoff {
      var k := EvictDrops(stamps[1..], cutoff);
      n := k + 1;
      assert stamps[1..][k..] == stamps[n..];
    }
  }

  lemma ExpiredLater(ts: seq<int>, i: nat)
    requires ts != [] && Expired(ts[..|ts| - 1], i)
    ensures Expired(ts, i)
  {
    var k :| i < k < |ts| - 1 && ts[..|ts| - 1][k] - ts[i] > WINDOW_MS;
    assert ts[k] - ts[i] > WINDOW_MS;
  }

  /** Evicting at the newest request drops only what that request makes expire. */
  lemma EvictHolds(stamps: seq<int>, held: seq<nat>, ts: seq<int>, admitted: seq<bool>) returns (held': seq<nat>)
    requires ts != [] && |admitted| == |ts| - 1 && Holds(stamps, held, ts[..|ts| - 1], admitted)
    ensures Holds(Evict(stamps, ts[|ts| - 1] - WINDOW_MS), held', ts, admitted)
  {
    var now := ts[|ts| - 1];
    var n := EvictDrops(stamps, now - WINDOW_MS);
    held' := held[n..];
    forall i: nat | i < |admitted| && admitted[i] ensures i in held' || Expired(ts, i) {
      if i in held {
        var q :| 0 <= q < |held| && held[q] == i;
        if q < n {
          assert ts[|ts| - 1] - ts[i] > WINDOW_MS;
        } else {
          assert held'[q - n] == i;
        }
      } else {
        ExpiredLater(ts, i);
      }
    }
  }

  lemma {:induction false} DequeHolds(ts: seq<int>, max: int) returns (held: seq<nat>)
    ensures Holds(Replay(ts, max).0, held, ts, Replay(ts, max).1)
  {
    held := [];
    if ts != [] {
      var n := |ts| - 1;
      var past := DequeHolds(ts[..n], max);
      var (stamps, answers) := Replay(ts[..n], max);
      held := EvictHolds(stamps, past, ts, answers);
      var recent := Evict(stamps, ts[n] - WINDOW_MS);
      if |recent| < max {
        AdmitHolds(recent, held, ts, answers);
        held := held + [n];
      } else {
        RefuseHolds(recent, held, ts, answers);
      }
    }
  }

  lemma AdmitHolds(recent: seq<int>, held: seq<nat>, ts: seq<int>, answers: seq<bool>)
    requires ts != [] && |answers| == |ts| - 1 && Holds(recent, held, ts, answers)
    ensures Holds(recent + [ts[|ts| - 1]], held + [|ts| - 1], ts, answers + [true])
  {
    var held', n := held + [|ts| - 1], |ts| - 1;
    assert held'[|held|] == n;
    assert forall i :: i in held ==> i in held';
  }

  lemma RefuseHolds(recent: seq<int>, held: seq<nat>, ts: seq<int>, answers: seq<bool>)
    requires ts != [] && |answers| == |ts| - 1 && Holds(recent, held, ts, answers)
    ensures Holds(recent, held, ts, answers + [false])
  {
  }

  // ----- the limit -----

  /** Without rebounds, what is within a minute of the newest request has not expired. */
  lemma StillHeld(ts: seq<int>, i: nat)
    requires NoRebound(ts) && i < |ts| - 1 && ts[|ts| - 1] - ts[i] <= WINDOW_MS
    ensures !Expired(ts, i)
  {
    forall k | i < k < |ts| ensures ts[k] - ts[i] <= WINDOW_MS {
    }
  }

  lemma {:induction false} CountWithin(ts: seq<int>, choice: seq<bool>, lo: int, hi: int, within: set<nat>)
    requires |ts| == |choice|
    requires forall i: nat :: i < |ts| && choice[i] && lo <= ts[i] <= hi ==> i in within
    ensures Admitted(ts, choice, lo, hi) <= |within|
  {
    if ts != [] {
      var n := |ts| - 1;
      if choice[n] && lo <= ts[n] <= hi {
        CountWithin(ts[..n], choice[..n], lo, hi, within - {n});
      } else {
        CountWithin(ts[..n], choice[..n], lo, hi, within);
      }
    }
  }

  lemma {:induction false} MembersAtMost(held: seq<nat>) returns (members: set<nat>)
    ensures (forall i :: i in held ==> i in members) && |members| <= |held|
  {
    members := {};
    if held != [] {
      var n := |held| - 1;
      var past := MembersAtMost(held[..n]);
      members := past + {held[n]};
    }
  }

  /** When the newest request is let through, fewer than `max` of its window were before it. */
  lemma RoomLeft(ts: seq<int>, max: int, lo: int)
    requires ts != [] && NoRebound(ts) && lo <= ts[|ts| - 1] <= lo + WINDOW_MS
    requires var n := |ts| - 1; |Evict(Replay(ts[..n], max).0, ts[n] - WINDOW_MS)| < max
    ensures var n := |ts| - 1; InMinute(ts[..n], Replay(ts[..n], max).1, lo) < max
  {
    var n := |ts| - 1;
    var (stamps, answers) := Replay(ts[..n], max);
    var past := DequeHolds(ts[..n], max);
    var held := EvictHolds(stamps, past, ts, answers);
    var members := MembersAtMost(held);
    forall i: nat | i < n && answers[i] && lo <= ts[i] <= lo + WINDOW_MS ensures i in members {
      StillHeld(ts, i);
    }
    CountWithin(ts[..n], answers, lo, lo + WINDOW_MS, members);
  }

  /** The limit is kept in every closed minute on every history without a rebound: small steps back
      of the clock do no harm. */
  lemma {:induction false} BoundedWithoutRebound(ts: seq<int>, max: int)
    requires NoRebound(ts)
    ensures Bounded(ts, Replay(ts, max).1, max)
  {
    if ts != [] {
      var n := |ts| - 1;
      var past, before, all := ts[..n], Replay(ts[..n], max).1, Replay(ts, max).1;
      BoundedWithoutRebound(past, max);
      assert all[..n] == before;
      forall lo ensures InMinute(ts, all, lo) <= if max < 0 then 0 else max {
        assert InMinute(past, before, lo) <= if max < 0 then 0 else max;
        if all[n] && lo <= ts[n] <= lo + WINDOW_MS {
          RoomLeft(ts, max, lo);
        }
      }
    }
  }
}
