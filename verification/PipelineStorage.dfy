/** Which of the attempted events a run stores, and which counter each insert raises. */
module PipelineStorage {
  import opened Types
  import opened Persist
  import opened Pipeline

  /** The results of the first `n` inserts of a flush; an insert without an outcome failed. */
  function Results(outcomes: seq<bool>, n: nat): (r: seq<bool>)
    ensures |r| == n
  {
    seq(n, i requires 0 <= i < n => i < |outcomes| && outcomes[i])
  }

  function OutcomesOf(a: Action): seq<bool> {
    match a
    case PollPersist(outcomes) => outcomes
    case FlushTimer(outcomes) => outcomes
    case _ => []
  }

  /** How many events a step attempts. */
  function Attempts(s: State, t: State): nat {
    if |t.persist.attempted| >= |s.persist.attempted| then |t.persist.attempted| - |s.persist.attempted| else 0
  }

  /** The result of every insert of a run, in the order of the attempts. */
  function InsertResults(c: Config, schedule: seq<Action>): seq<bool> {
    if schedule == [] then []
    else
      var n := |schedule| - 1;
      InsertResults(c, schedule[..n])
      + Results(OutcomesOf(schedule[n]), Attempts(Run(c, schedule[..n]), Run(c, schedule)))
  }

  lemma {:induction false} AcceptedConcat(a: seq<PersistEvent>, ra: seq<bool>, b: seq<PersistEvent>, rb: seq<bool>)
    requires |ra| == |a|
    ensures Accepted(a + b, ra + rb) == Accepted(a, ra) + Accepted(b, rb)
  {
    if b == [] {
      assert a + b == a;
      AcceptedSame(a, ra + rb, ra);
    } else {
      var n := |b| - 1;
      AcceptedConcat(a, ra, b[..n], rb);
      assert (a + b)[..|a| + n] == a + b[..n];
      assert (a + b)[|a| + n] == b[n];
    }
  }

  /** Only the outcomes of the events themselves matter. */
  lemma {:induction false} AcceptedSame(events: seq<PersistEvent>, r: seq<bool>, r': seq<bool>)
    requires forall i: nat :: i < |events| ==> ((i < |r| && r[i]) <==> (i < |r'| && r'[i]))
    ensures Accepted(events, r) == Accepted(events, r')
  {
    if events != [] {
      AcceptedSame(events[..|events| - 1], r, r');
    }
  }

  /** A step attempts a batch, possibly none, and stores what it accepts of it. */
  ghost predicate Stores(st: PersistState, t: PersistState, outcomes: seq<bool>) {
    && st.attempted <= t.attempted
    && t.stored == st.stored + Accepted(t.attempted[|st.attempted|..], outcomes)
  }

  lemma FlushStores(st: PersistState, outcomes: seq<bool>)
    ensures Stores(st, Flush(st, outcomes), outcomes)
  {
    assert (st.attempted + st.buffer)[|st.attempted|..] == st.buffer;
  }

  lemma NothingStores(st: PersistState, t: PersistState, outcomes: seq<bool>)
    requires t.attempted == st.attempted && t.stored == st.stored
    ensures Stores(st, t, outcomes)
  {
    assert st.attempted[|st.attempted|..] == [] && st.stored + [] == st.stored;
  }

  lemma ReceiveStores(st: PersistState, event: PersistEvent, outcomes: seq<bool>)
    ensures Stores(st, Receive(st, event, outcomes), outcomes)
  {
    if |st.buffer| + 1 >= BATCH_SIZE {
      FlushStores(st.(buffer := st.buffer + [event]), outcomes);
    } else {
      NothingStores(st, Receive(st, event, outcomes), outcomes);
    }
  }

  lemma IngestStores(c: Config, s: State, stop: bool)
    ensures IngestStep(c, s, stop).persist == s.persist
  {
  }

  lemma StrategyStores(c: Config, s: State)
    ensures StrategyStep(c, s).persist == s.persist
  {
  }

  lemma ExecutionStores(c: Config, s: State)
    ensures ExecutionStep(c, s).persist == s.persist
  {
  }

  lemma PersistStores(s: State, outcomes: seq<bool>)
    ensures Stores(s.persist, PersistStep(s, outcomes).persist, outcomes)
  {
    FlushStores(s.persist, outcomes);
    NothingStores(s.persist, s.persist, outcomes);
    if s.ch.events != [] {
      ReceiveStores(s.persist, s.ch.events[0], outcomes);
    }
  }

  lemma NextStores(c: Config, s: State, a: Action)
    ensures Stores(s.persist, Next(c, s, a).persist, OutcomesOf(a))
  {
    NothingStores(s.persist, s.persist, OutcomesOf(a));
    if !s.halted {
      match a {
        case PollIngest(stop) => IngestStores(c, s, stop);
        case PollStrategy => StrategyStores(c, s);
        case PollExecution => ExecutionStores(c, s);
        case PollPersist(outcomes) => PersistStores(s, outcomes);
        case FlushTimer(outcomes) => FlushStores(s.persist, outcomes);
      }
    }
  }

  lemma StoresMore(past: PersistState, st: PersistState, results: seq<bool>, outcomes: seq<bool>)
    requires Stores(past, st, outcomes)
    requires |results| == |past.attempted| && past.stored == Accepted(past.attempted, results)
    ensures var all := results + Results(outcomes, |st.attempted| - |past.attempted|);
            |all| == |st.attempted| && st.stored == Accepted(st.attempted, all)
  {
    var batch := st.attempted[|past.attempted|..];
    var added := Results(outcomes, |batch|);
    assert st.attempted == past.attempted + batch;
    AcceptedConcat(past.attempted, results, batch, added);
    AcceptedSame(batch, added, outcomes);
  }

  lemma {:induction false} RunStores(c: Config, schedule: seq<Action>)
    ensures var p, results := Run(c, schedule).persist, InsertResults(c, schedule);
            |results| == |p.attempted| && p.stored == Accepted(p.attempted, results)
  {
    if schedule != [] {
      var n := |schedule| - 1;
      var s := Run(c, schedule[..n]);
      RunStores(c, schedule[..n]);
      NextStores(c, s, schedule[n]);
      StoresMore(s.persist, Run(c, schedule).persist, InsertResults(c, schedule[..n]), OutcomesOf(schedule[n]));
    }
  }

  /** Over every run: the stored events are exactly those at the attempts `at`, in order, whose insert
      succeeded, and the two counters count the successes and the failures. */
  lemma {:induction false} StoredAreTheSuccesses(c: Config, schedule: seq<Action>) returns (at: seq<nat>)
    ensures var p, results := Run(c, schedule).persist, InsertResults(c, schedule);
            && |results| == |p.attempted|
            && |at| == |p.stored| == p.persistCount && p.persistErrors == |p.attempted| - |at|
            && (forall j, k :: 0 <= j < k < |at| ==> at[j] < at[k])
            && (forall k :: 0 <= k < |at| ==> at[k] < |p.attempted| && p.stored[k] == p.attempted[at[k]])
            && (forall i: nat :: i < |p.attempted| ==> (i in at <==> results[i]))
  {
    RunStores(c, schedule);
    RunKeeps(c, schedule);
    at := AcceptedPositions(Run(c, schedule).persist.attempted, InsertResults(c, schedule));
  }

  /** Every insert of the run has an outcome, and it is `outcome`. */
  ghost predicate EveryInsert(schedule: seq<Action>, outcome: bool) {
    forall k :: 0 <= k < |schedule| && (schedule[k].PollPersist? || schedule[k].FlushTimer?) ==>
      var outcomes := OutcomesOf(schedule[k]);
      |outcomes| >= 100 && forall i :: 0 <= i < |outcomes| ==> outcomes[i] == outcome
  }

  lemma BatchIsSmall(c: Config, schedule: seq<Action>)
    requires schedule != []
    ensures var n := |schedule| - 1;
            Attempts(Run(c, schedule[..n]), Run(c, schedule)) <= 100
            && (Attempts(Run(c, schedule[..n]), Run(c, schedule)) > 0 ==>
                  schedule[n].PollPersist? || schedule[n].FlushTimer?)
  {
    var n := |schedule| - 1;
    var s := Run(c, schedule[..n]);
    RunKeeps(c, schedule[..n]);
    assert |s.persist.buffer| < 100;
    AttemptsInStep(c, s, schedule[n]);
  }

  lemma AttemptsInStep(c: Config, s: State, a: Action)
    requires |s.persist.buffer| < 100
    ensures Attempts(s, Next(c, s, a)) <= 100
    ensures Attempts(s, Next(c, s, a)) > 0 ==> a.PollPersist? || a.FlushTimer?
  {
    match a {
      case PollIngest(stop) => IngestStores(c, s, stop);
      case PollStrategy => StrategyStores(c, s);
      case PollExecution => ExecutionStores(c, s);
      case PollPersist(_) =>
      case FlushTimer(_) =>
    }
  }

  lemma {:induction false} UniformResults(c: Config, schedule: seq<Action>, outcome: bool)
    requires EveryInsert(schedule, outcome)
    ensures forall i :: 0 <= i < |InsertResults(c, schedule)| ==> InsertResults(c, schedule)[i] == outcome
  {
    if schedule != [] {
      var n := |schedule| - 1;
      assert EveryInsert(schedule[..n], outcome) by {
        assert forall k :: 0 <= k < n ==> schedule[..n][k] == schedule[k];
      }
      UniformResults(c, schedule[..n], outcome);
      BatchIsSmall(c, schedule);
    }
  }

  /** With a database that accepts everything, all that was attempted is stored and no error is
      counted; with one that accepts nothing, nothing is stored and every attempt is an error. */
  lemma {:induction false} AllOrNothingStored(c: Config, schedule: seq<Action>, outcome: bool)
    requires EveryInsert(schedule, outcome)
    ensures var p := Run(c, schedule).persist;
            if outcome then p.stored == p.attempted && p.persistCount == |p.attempted| && p.persistErrors == 0
            else p.stored == [] && p.persistCount == 0 && p.persistErrors == |p.attempted|
  {
    var p := Run(c, schedule).persist;
    UniformResults(c, schedule, outcome);
    RunStores(c, schedule);
    RunKeeps(c, schedule);
    UniformAccepted(p.attempted, InsertResults(c, schedule), outcome);
  }

  lemma {:induction false} UniformAccepted(events: seq<PersistEvent>, results: seq<bool>, outcome: bool)
    requires |results| >= |events| && forall i :: 0 <= i < |events| ==> results[i] == outcome
    ensures Accepted(events, results) == if outcome then events else []
  {
    if events != [] {
      UniformAccepted(events[..|events| - 1], results, outcome);
    }
  }
}
