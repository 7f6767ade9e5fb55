/** The batch writer (engine-rust/src/persist.rs). Whether one insert succeeds is decided by the
    database, so every flush takes the outcomes of its inserts as an input. */
module Persist {
  import opened Types

  const BATCH_SIZE: nat := 100

  /** `attempted` and `stored` are the events handed to the database and those it accepted. */
  datatype PersistState = PersistState(
    buffer: seq<PersistEvent>,
    attempted: seq<PersistEvent>,
    stored: seq<PersistEvent>,
    persistCount: nat,
    persistErrors: nat)

  const NOTHING_PERSISTED := PersistState([], [], [], 0, 0)

  /** The events whose insert succeeded; an insert without an outcome counts as failed. */
  function Accepted(events: seq<PersistEvent>, outcomes: seq<bool>): (r: seq<PersistEvent>)
    ensures |r| <= |events|
  {
    if events == [] then []
    else
      var n := |events| - 1;
      Accepted(events[..n], outcomes) + (if n < |outcomes| && outcomes[n] then [events[n]] else [])
  }

  /** The inserts at the positions `at` of the buffer succeeded, and no others: their events are
      stored in order and counted, the others are counted as errors; all were attempted. */
  ghost predicate Flushed(st: PersistState, t: PersistState, outcomes: seq<bool>, at: seq<nat>) {
    && (forall j, k :: 0 <= j < k < |at| ==> at[j] < at[k])
    && (forall k :: 0 <= k < |at| ==> at[k] < |st.buffer|)
    && (forall i: nat :: i < |st.buffer| ==> (i in at <==> i < |outcomes| && outcomes[i]))
    && |t.stored| == |st.stored| + |at| && t.stored[..|st.stored|] == st.stored
    && (forall k :: 0 <= k < |at| ==> t.stored[|st.stored| + k] == st.buffer[at[k]])
    && t.persistCount == st.persistCount + |at|
    && t.persistErrors == st.persistErrors + (|st.buffer| - |at|)
    && t.attempted == st.attempted + st.buffer && t.buffer == []
  }

  /** `accepted` are the events at the positions `at`: those whose insert succeeded. */
  ghost predicate AcceptedAt(events: seq<PersistEvent>, outcomes: seq<bool>, accepted: seq<PersistEvent>, at: seq<nat>) {
    && |at| == |accepted|
    && (forall j, k :: 0 <= j < k < |at| ==> at[j] < at[k])
    && (forall k :: 0 <= k < |at| ==> at[k] < |events| && accepted[k] == events[at[k]])
    && (forall i: nat :: i < |events| ==> (i in at <==> i < |outcomes| && outcomes[i]))
  }

  lemma AcceptOneMore(events: seq<PersistEvent>, outcomes: seq<bool>, accepted: seq<PersistEvent>, past: seq<nat>)
    requires events != [] && AcceptedAt(events[..|events| - 1], outcomes, accepted, past)
    ensures var n := |events| - 1;
            if n < |outcomes| && outcomes[n] then AcceptedAt(events, outcomes, accepted + [events[n]], past + [n])
            else AcceptedAt(events, outcomes, accepted, past)
  {
    var n := |events| - 1;
    var at := past + [n];
    assert at[|past|] == n;
    assert forall i :: i in at <==> i in past || i == n;
  }

  lemma {:induction false} AcceptedPositions(events: seq<PersistEvent>, outcomes: seq<bool>) returns (at: seq<nat>)
    ensures AcceptedAt(events, outcomes, Accepted(events, outcomes), at)
  {
    at := [];
    if events != [] {
      var n := |events| - 1;
      at := AcceptedPositions(events[..n], outcomes);
      AcceptOneMore(events, outcomes, Accepted(events[..n], outcomes), at);
      if n < |outcomes| && outcomes[n] {
        at := at + [n];
      }
    }
  }

  /** What a flush does, insert by insert. */
  lemma FlushExactly(st: PersistState, outcomes: seq<bool>) returns (at: seq<nat>)
    ensures Flushed(st, Flush(st, outcomes), outcomes, at)
  {
    at := AcceptedPositions(st.buffer, outcomes);
  }

  function Flush(st: PersistState, outcomes: seq<bool>): PersistState {
    var accepted := Accepted(st.buffer, outcomes);
    PersistState([], st.attempted + st.buffer, st.stored + accepted,
                 st.persistCount + |accepted|, st.persistErrors + (|st.buffer| - |accepted|))
  }

  function Receive(st: PersistState, event: PersistEvent, outcomes: seq<bool>): PersistState {
    var st' := st.(buffer := st.buffer + [event]);
    if |st'.buffer| >= BATCH_SIZE then Flush(st', outcomes) else st'
  }

  /** An arriving event is only buffered, unless it completes a batch of 100. */
  lemma ReceiveIs(st: PersistState, event: PersistEvent, outcomes: seq<bool>)
    ensures |st.buffer| + 1 < 100 ==>
              Receive(st, event, outcomes)
              == PersistState(st.buffer + [event], st.attempted, st.stored, st.persistCount, st.persistErrors)
    ensures |st.buffer| + 1 >= 100 ==>
              exists at :: Flushed(st.(buffer := st.buffer + [event]), Receive(st, event, outcomes), outcomes, at)
  {
    var st' := st.(buffer := st.buffer + [event]);
    var at := FlushExactly(st', outcomes);
    if |st'.buffer| >= 100 {
      assert Flushed(st', Receive(st, event, outcomes), outcomes, at);
    }
  }

  /** Every received event is either attempted or still buffered, in arrival order; the counters
      split the attempted ones; a batch never reaches its limit between steps. */
  ghost predicate Balanced(st: PersistState, received: seq<PersistEvent>) {
    && st.attempted + st.buffer == received
    && st.persistCount + st.persistErrors == |st.attempted|
    && st.persistCount == |st.stored|
    && |st.buffer| < 100
  }

  lemma NothingBalanced()
    ensures Balanced(NOTHING_PERSISTED, [])
  {
  }

  lemma ReceiveBalanced(st: PersistState, received: seq<PersistEvent>, event: PersistEvent, outcomes: seq<bool>)
    requires Balanced(st, received)
    ensures Balanced(Receive(st, event, outcomes), received + [event])
  {
    assert st.attempted + (st.buffer + [event]) == received + [event];
  }

  lemma FlushBalanced(st: PersistState, received: seq<PersistEvent>, outcomes: seq<bool>)
    requires Balanced(st, received)
    ensures Balanced(Flush(st, outcomes), received)
    ensures Flush(st, outcomes).attempted == received && Flush(st, outcomes).buffer == []
  {
  }

  class PersistTask {
    var buffer: seq<PersistEvent>
    var persistCount: nat
    var persistErrors: nat
    var attempted: seq<PersistEvent>
    var stored: seq<PersistEvent>

    function View(): PersistState
      reads this
    {
      PersistState(buffer, attempted, stored, persistCount, persistErrors)
    }

    constructor ()
      ensures View() == NOTHING_PERSISTED
    {
      buffer, attempted, stored, persistCount, persistErrors := [], [], [], 0, 0;
    }

    /** Inserts the buffered events one by one; a failed insert is counted and skipped. */
    method FlushBatch(outcomes: seq<bool>)
      modifies this
      ensures View() == Flush(old(View()), outcomes)
      ensures exists at :: Flushed(old(View()), View(), outcomes, at)
    {
      ghost var before := View();
      if buffer == [] {
        ghost var none := FlushExactly(before, outcomes);
        return;
      }
      var batch := buffer;
      var successCount, errorCount := 0, 0;
      for i := 0 to |batch|
        invariant attempted == old(attempted) + batch[..i]
        invariant stored == old(stored) + Accepted(batch[..i], outcomes)
        invariant successCount == |Accepted(batch[..i], outcomes)| && successCount + errorCount == i
        invariant persistCount == old(persistCount) && persistErrors == old(persistErrors)
      {
        assert batch[..i + 1][..i] == batch[..i];
        attempted := attempted + [batch[i]];
        if i < |outcomes| && outcomes[i] {
          stored := stored + [batch[i]];
          successCount := successCount + 1;
        } else {
          errorCount := errorCount + 1;
        }
      }
      assert batch[..|batch|] == batch;
      buffer := [];
      persistCount := persistCount + successCount;
      persistErrors := persistErrors + errorCount;
      assert View() == Flush(before, outcomes);
      ghost var at := FlushExactly(before, outcomes);
    }

    /** An event arrived. */
    method OnEvent(event: PersistEvent, outcomes: seq<bool>)
      modifies this
      ensures View() == Receive(old(View()), event, outcomes)
    {
      buffer := buffer + [event];
      if |buffer| >= BATCH_SIZE {
        FlushBatch(outcomes);
      }
    }

    /** The flush timer fired, or the channel closed. */
    method OnTimerOrClose(outcomes: seq<bool>)
      modifies this
      ensures View() == Flush(old(View()), outcomes)
    {
      if buffer != [] {
        FlushBatch(outcomes);
      }
    }
  }
}
