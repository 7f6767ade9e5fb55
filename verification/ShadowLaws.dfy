/** Whole-run laws of the shadow loop: the feed-abort latch and the per-minute rates. The exposure
    budget is in `ShadowRun`. */
module ShadowLaws {
  import opened Wrappers
  import opened RiskRules
  import opened RateLimiting
  import opened ReturnModel
  import opened StaleEdge
  import opened ShadowRun

  // ----- the journal has one row per iteration -----

  lemma {:induction false} JournalLength(setup: Setup, inputs: seq<Input>)
    ensures |Run(setup, inputs).rows| == |inputs|
    ensures inputs != [] ==> Run(setup, inputs).rows[..|inputs| - 1] == Run(setup, inputs[..|inputs| - 1]).rows
  {
    if inputs != [] {
      var n := |inputs| - 1;
      JournalLength(setup, inputs[..n]);
      StepOrders(setup, Run(setup, inputs[..n]), inputs[n]);
    }
  }

  /** Rows are never rewritten: row `k` of a run is the last row of its first k + 1 iterations. */
  lemma {:induction false} RowAt(setup: Setup, inputs: seq<Input>, k: nat)
    requires k < |inputs|
    ensures |Run(setup, inputs).rows| == |inputs| && |Run(setup, inputs[..k + 1]).rows| == k + 1
    ensures Run(setup, inputs).rows[k] == Run(setup, inputs[..k + 1]).rows[k]
    decreases |inputs|
  {
    JournalLength(setup, inputs);
    JournalLength(setup, inputs[..k + 1]);
    if k + 1 == |inputs| {
      assert inputs[..k + 1] == inputs;
    } else {
      var n := |inputs| - 1;
      RowAt(setup, inputs[..n], k);
      assert inputs[..n][..k + 1] == inputs[..k + 1];
      assert Run(setup, inputs).rows[k] == Run(setup, inputs).rows[..n][k];
    }
  }

  // ----- the feed-abort latch -----

  /** When the feed last answered, up to and including iteration `k`; the start when it never did. */
  function LastAnswer(setup: Setup, inputs: seq<Input>, k: nat): int
    requires k < |inputs|
  {
    if FeedSeen(setup, inputs[k]).Some? then inputs[k].nowMs
    else if k == 0 then setup.startMs
    else LastAnswer(setup, inputs, k - 1)
  }

  /** At iteration `k` the feed has been silent for longer than the abort limit. */
  predicate Silent(setup: Setup, inputs: seq<Input>, k: nat)
    requires k < |inputs|
  {
    inputs[k].nowMs - LastAnswer(setup, inputs, k) > setup.rules.feedStaleAbortSec * 1000
  }

  lemma {:induction false} LastAnswerPrefix(setup: Setup, inputs: seq<Input>, n: nat, k: nat)
    requires k < n <= |inputs|
    ensures LastAnswer(setup, inputs[..n], k) == LastAnswer(setup, inputs, k)
    decreases k
  {
    if k > 0 {
      LastAnswerPrefix(setup, inputs, n, k - 1);
    }
  }

  /** What the loop remembers of the feed. */
  lemma {:induction false} RemembersLastAnswer(setup: Setup, inputs: seq<Input>)
    requires inputs != []
    ensures var last := Run(setup, inputs).lastOkMs;
            LastAnswer(setup, inputs, |inputs| - 1) == if last.Some? then last.value else setup.startMs
  {
    var n := |inputs| - 1;
    if n > 0 {
      RemembersLastAnswer(setup, inputs[..n]);
      LastAnswerPrefix(setup, inputs, n, n - 1);
    } else {
      assert inputs[..n] == [];
    }
  }

  /** The abort is raised exactly by a silence, and then stays. */
  lemma {:induction false} AbortIffSilent(setup: Setup, inputs: seq<Input>)
    ensures Run(setup, inputs).feedAbort <==> exists k: nat :: k < |inputs| && Silent(setup, inputs, k)
  {
    if inputs != [] {
      var n := |inputs| - 1;
      AbortIffSilent(setup, inputs[..n]);
      RemembersLastAnswer(setup, inputs);
      forall k: nat | k < n ensures Silent(setup, inputs[..n], k) == Silent(setup, inputs, k) {
        LastAnswerPrefix(setup, inputs, n, k);
      }
      assert Run(setup, inputs).feedAbort <==> Run(setup, inputs[..n]).feedAbort || Silent(setup, inputs, n);
    }
  }

  lemma AbortedRow(setup: Setup, s: State, input: Input)
    ensures var s' := Step(setup, s, input);
            s'.feedAbort ==>
              |s'.rows| == |s.rows| + 1
              && s'.rows[|s.rows|].decision
                 == Refuse(if setup.sourceKnown then FeedStaleAbort else ResolutionSourceUnknown, NO_QUOTES)
              && s'.exposure == s.exposure
  {
  }

  /** From the first over-long silence on, every decision is a refusal: no order and no cancel. */
  lemma NothingAfterSilence(setup: Setup, inputs: seq<Input>, j: nat, k: nat)
    requires j <= k < |inputs| && Silent(setup, inputs, j)
    ensures |Run(setup, inputs).rows| == |inputs|
    ensures Run(setup, inputs).rows[k].decision
            == Refuse(if setup.sourceKnown then FeedStaleAbort else ResolutionSourceUnknown, NO_QUOTES)
  {
    RowAt(setup, inputs, k);
    var upTo := inputs[..k + 1];
    LastAnswerPrefix(setup, inputs, k + 1, j);
    AbortIffSilent(setup, upTo);
    assert Silent(setup, upTo, j);
    JournalLength(setup, upTo[..k]);
    AbortedRow(setup, Run(setup, upTo[..k]), upTo[k]);
  }

  // ----- rates -----

  datatype Kind = OrderKind | CancelKind

  predicate IsKind(row: Row, kind: Kind) {
    if kind == OrderKind then row.decision.action == PlaceOrder else row.decision.cancelAll
  }

  function Asked(s: State, kind: Kind): seq<int> {
    if kind == OrderKind then s.lim.asked else s.lim.cancelsAsked
  }

  function Stamps(s: State, kind: Kind): seq<int> {
    if kind == OrderKind then s.lim.orderStamps else s.lim.cancelStamps
  }

  function PerMinute(setup: Setup, kind: Kind): int {
    if kind == OrderKind then setup.rules.maxOrdersPerMin else setup.rules.maxCancelReplacePerMin
  }

  /** Rows of a kind journalled from `lo` to `hi`. */
  function RowsIn(rows: seq<Row>, kind: Kind, lo: int, hi: int): nat {
    if rows == [] then 0
    else
      var n := |rows| - 1;
      RowsIn(rows[..n], kind, lo, hi) + (if IsKind(rows[n], kind) && lo <= rows[n].now <= hi then 1 else 0)
  }

  /** The limiter's deque is that of its call log, and every row of the kind was let through. */
  ghost predicate Limited(setup: Setup, s: State, kind: Kind, lastNow: int) {
    var (stamps, answers) := RateLimiting.Replay(Asked(s, kind), PerMinute(setup, kind));
    && Stamps(s, kind) == stamps
    && Nondecreasing(Asked(s, kind))
    && (forall i :: 0 <= i < |Asked(s, kind)| ==> Asked(s, kind)[i] <= lastNow)
    && (forall lo, hi :: RowsIn(s.rows, kind, lo, hi) <= Admitted(Asked(s, kind), answers, lo, hi))
  }

  /** One iteration, seen by one limiter: not called and no row of its kind, or called once and a
      row of its kind only when it said yes. */
  ghost predicate CalledAtMostOnce(setup: Setup, s: State, s': State, kind: Kind, now: int) {
    && |s'.rows| == |s.rows| + 1 && s'.rows == s.rows + [s'.rows[|s.rows|]] && s'.rows[|s.rows|].now == now
    && var (stamps, ok) := Admit(Stamps(s, kind), PerMinute(setup, kind), now);
       || (Asked(s', kind) == Asked(s, kind) && Stamps(s', kind) == Stamps(s, kind) && !IsKind(s'.rows[|s.rows|], kind))
       || (Asked(s', kind) == Asked(s, kind) + [now] && Stamps(s', kind) == stamps
           && (IsKind(s'.rows[|s.rows|], kind) ==> ok))
  }

  lemma StepCalls(setup: Setup, s: State, input: Input, kind: Kind)
    ensures CalledAtMostOnce(setup, s, Step(setup, s, input), kind, input.nowMs)
  {
    var feedAbort := s.feedAbort || FeedTooOld(setup, LastOk(setup, s.lastOkMs, input), input.nowMs);
    CascadeOrders(setup, feedAbort, s.model, input);
    StepOrders(setup, s, input);
  }

  lemma RowsInPush(rows: seq<Row>, row: Row, kind: Kind, lo: int, hi: int)
    ensures RowsIn(rows + [row], kind, lo, hi)
            == RowsIn(rows, kind, lo, hi) + (if IsKind(row, kind) && lo <= row.now <= hi then 1 else 0)
  {
    assert (rows + [row])[..|rows|] == rows;
  }

  lemma AdmittedPush(ts: seq<int>, choice: seq<bool>, now: int, ok: bool, lo: int, hi: int)
    requires |ts| == |choice|
    ensures Admitted(ts + [now], choice + [ok], lo, hi)
            == Admitted(ts, choice, lo, hi) + (if ok && lo <= now <= hi then 1 else 0)
  {
    assert (ts + [now])[..|ts|] == ts && (choice + [ok])[..|choice|] == choice;
  }

  /** The counts stay ordered when one row and at most one call are added. */
  lemma CountNext(rows: seq<Row>, row: Row, asked: seq<int>, answers: seq<bool>, ok: bool, kind: Kind, lo: int, hi: int)
    requires |asked| == |answers| && RowsIn(rows, kind, lo, hi) <= Admitted(asked, answers, lo, hi)
    ensures !IsKind(row, kind) ==> RowsIn(rows + [row], kind, lo, hi) <= Admitted(asked, answers, lo, hi)
    ensures (IsKind(row, kind) ==> ok) ==>
              RowsIn(rows + [row], kind, lo, hi) <= Admitted(asked + [row.now], answers + [ok], lo, hi)
  {
    RowsInPush(rows, row, kind, lo, hi);
    AdmittedPush(asked, answers, row.now, ok, lo, hi);
  }

  lemma StepLimited(setup: Setup, s: State, s': State, kind: Kind, lastNow: int, now: int)
    requires Limited(setup, s, kind, lastNow) && lastNow <= now
    requires CalledAtMostOnce(setup, s, s', kind, now)
    ensures Limited(setup, s', kind, now)
  {
    var asked, max, row := Asked(s, kind), PerMinute(setup, kind), s'.rows[|s.rows|];
    var answers := RateLimiting.Replay(asked, max).1;
    var ok := Admit(Stamps(s, kind), max, now).1;
    ReplayPush(asked, now, max);
    forall lo, hi
      ensures !IsKind(row, kind) ==> RowsIn(s'.rows, kind, lo, hi) <= Admitted(asked, answers, lo, hi)
      ensures (IsKind(row, kind) ==> ok) ==>
                RowsIn(s'.rows, kind, lo, hi) <= Admitted(asked + [now], answers + [ok], lo, hi)
    {
      assert RowsIn(s.rows, kind, lo, hi) <= Admitted(asked, answers, lo, hi);
      CountNext(s.rows, row, asked, answers, ok, kind, lo, hi);
    }
  }

  lemma {:induction false} RunLimited(setup: Setup, inputs: seq<Input>, kind: Kind)
    requires ClockForward(inputs) && inputs != []
    ensures Limited(setup, Run(setup, inputs), kind, inputs[|inputs| - 1].nowMs)
  {
    var n := |inputs| - 1;
    var s, input := Run(setup, inputs[..n]), inputs[n];
    StepCalls(setup, s, input, kind);
    if n == 0 {
      StepLimited(setup, s, Step(setup, s, input), kind, input.nowMs, input.nowMs);
    } else {
      RunLimited(setup, inputs[..n], kind);
      StepLimited(setup, s, Step(setup, s, input), kind, inputs[n - 1].nowMs, input.nowMs);
    }
  }

  /** In every closed minute of the run the journal holds at most `maxOrdersPerMin` orders and at
      most `maxCancelReplacePerMin` cancels. */
  lemma RateBound(setup: Setup, inputs: seq<Input>, kind: Kind, lo: int)
    requires ClockForward(inputs)
    ensures RowsIn(Run(setup, inputs).rows, kind, lo, lo + 60_000)
            <= if PerMinute(setup, kind) < 0 then 0 else PerMinute(setup, kind)
  {
    if inputs != [] {
      RunLimited(setup, inputs, kind);
      var s, max := Run(setup, inputs), PerMinute(setup, kind);
      LimiterIsGreedy(Asked(s, kind), max);
      GreedyBounded(Asked(s, kind), max);
      assert InMinute(Asked(s, kind), Greedy(Asked(s, kind), max), lo) <= if max < 0 then 0 else max;
    }
  }
}
