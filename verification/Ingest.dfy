/** File replay: which ticks of a file are sent (engine-rust/src/ingest/mod.rs). */
module Ingest {
  import opened Types

  /** One line of the replay file after trimming. */
  datatype Line = Blank | Malformed | Parsed(tick: Tick)

  function ParsedTicks(lines: seq<Line>): (ticks: seq<Tick>)
    ensures |ticks| <= |lines|
  {
    if lines == [] then []
    else
      var n := |lines| - 1;
      ParsedTicks(lines[..n]) + (if lines[n].Parsed? then [lines[n].tick] else [])
  }

  function NonBlank(lines: seq<Line>): (count: nat)
    ensures count <= |lines|
  {
    if lines == [] then 0
    else NonBlank(lines[..|lines| - 1]) + (if lines[|lines| - 1].Blank? then 0 else 1)
  }

  /** `ticks` are those of the lines `at`: the ones that parse, in order. */
  ghost predicate ParsedAt(lines: seq<Line>, ticks: seq<Tick>, at: seq<nat>) {
    && |at| == |ticks|
    && (forall j, k :: 0 <= j < k < |at| ==> at[j] < at[k])
    && (forall k :: 0 <= k < |at| ==> at[k] < |lines| && lines[at[k]] == Parsed(ticks[k]))
    && (forall i: nat :: i < |lines| && lines[i].Parsed? ==> i in at)
  }

  lemma ParseOneMore(lines: seq<Line>, ticks: seq<Tick>, past: seq<nat>)
    requires lines != [] && ParsedAt(lines[..|lines| - 1], ticks, past)
    ensures var n := |lines| - 1;
            if lines[n].Parsed? then ParsedAt(lines, ticks + [lines[n].tick], past + [n]) else ParsedAt(lines, ticks, past)
  {
    var n := |lines| - 1;
    assert (past + [n])[|past|] == n;
    forall i: nat | i < n && lines[i].Parsed? ensures i in past {
      assert lines[..n][i] == lines[i];
    }
    assert forall i :: i in past ==> i in past + [n];
  }

  /** Every line that parses yields its tick, in order, and no other line does. */
  lemma {:induction false} ParsedPositions(lines: seq<Line>) returns (at: seq<nat>)
    ensures ParsedAt(lines, ParsedTicks(lines), at)
  {
    at := [];
    if lines != [] {
      var n := |lines| - 1;
      at := ParsedPositions(lines[..n]);
      ParseOneMore(lines, ParsedTicks(lines[..n]), at);
      if lines[n].Parsed? {
        at := at + [n];
      }
    }
  }

  /** The lines counted as received are those that are not blank. */
  lemma {:induction false} NonBlankIs(lines: seq<Line>) returns (at: set<nat>)
    ensures |at| == NonBlank(lines) && forall i: nat :: i in at <==> i < |lines| && lines[i] != Blank
  {
    at := {};
    if lines != [] {
      var n := |lines| - 1;
      var past := NonBlankIs(lines[..n]);
      at := if lines[n] == Blank then past else past + {n};
    }
  }

  /** The sampling test, on the number of parsed lines including the current one. */
  predicate Due(count: nat, sampleEvery: nat)
    requires sampleEvery >= 1
  {
    count % sampleEvery == 0
  }

  /** The k-th, 2k-th, 3k-th ... element of `s`. */
  function EveryKth<T>(s: seq<T>, k: nat): (r: seq<T>)
    requires k >= 1
    ensures |r| <= |s|
  {
    if s == [] then []
    else
      var n := |s| - 1;
      EveryKth(s[..n], k) + (if Due(|s|, k) then [s[n]] else [])
  }

  lemma EveryKthPush<T>(s: seq<T>, x: T, k: nat)
    requires k >= 1
    ensures EveryKth(s + [x], k) == EveryKth(s, k) + (if Due(|s| + 1, k) then [x] else [])
  {
    assert (s + [x])[..|s|] == s;
  }

  lemma MultipleAtLeast(a: int, k: nat)
    requires a >= 1
    ensures a * k >= k
  {
    assert (a - 1) * k >= 0;
  }

  lemma SameMultiple(q: int, m: int, k: nat)
    requires k >= 1
    requires (m - 1) * k < q * k < (m + 1) * k
    ensures q == m
  {
    if q > m {
      MultipleAtLeast(q - m, k);
    } else if q < m {
      MultipleAtLeast(m - q, k);
    }
  }

  /** After `n` elements, of which `m` were kept, the next one is kept when it completes a block. */
  lemma NextMultiple(n: nat, k: nat, m: nat)
    requires k >= 1 && m * k <= n < (m + 1) * k
    ensures Due(n + 1, k) <==> n + 1 == (m + 1) * k
  {
    var q := (n + 1) / k;
    assert n + 1 == q * k + (n + 1) % k;
    if (n + 1) % k == 0 {
      SameMultiple(q, m + 1, k);
    } else if n + 1 == (m + 1) * k {
      MultipleRemainder(m + 1, k);
    }
  }

  lemma MultipleRemainder(m: nat, k: nat)
    requires k >= 1
    ensures (m * k) % k == 0
  {
    var n := m * k;
    assert n == (n / k) * k + n % k;
    SameMultiple(m, n / k, k);
  }

  /** `EveryKth` is what its name says: as many elements as there are whole blocks of `k`, the
      i-th of them the last one of block i. */
  lemma {:induction false} EveryKthIs<T>(s: seq<T>, k: nat)
    requires k >= 1
    ensures |EveryKth(s, k)| * k <= |s| < (|EveryKth(s, k)| + 1) * k
    ensures forall i: nat :: i < |EveryKth(s, k)| ==> KeptAt(s, k, i)
  {
    if s != [] {
      var n := |s| - 1;
      EveryKthIs(s[..n], k);
      var m := |EveryKth(s[..n], k)|;
      EveryKthPush(s[..n], s[n], k);
      assert s == s[..n] + [s[n]];
      NextMultiple(n, k, m);
      forall i: nat | i < |EveryKth(s, k)| ensures KeptAt(s, k, i) {
        if i < m {
          assert KeptAt(s[..n], k, i);
        }
      }
    }
  }

  ghost predicate KeptAt<T>(s: seq<T>, k: nat, i: nat)
    requires k >= 1
  {
    var last := (i + 1) * k - 1;
    i < |EveryKth(s, k)| && 0 <= last < |s| && EveryKth(s, k)[i] == s[last]
  }

  /** The ticks replay sends after reading `lines`. */
  function Sampled(lines: seq<Line>, sampleEvery: nat): (r: seq<Tick>)
    requires sampleEvery >= 1
    ensures |r| <= |lines|
  {
    EveryKth(ParsedTicks(lines), sampleEvery)
  }

  lemma LinesPush(lines: seq<Line>, line: Line)
    ensures ParsedTicks(lines + [line]) == ParsedTicks(lines) + (if line.Parsed? then [line.tick] else [])
    ensures NonBlank(lines + [line]) == NonBlank(lines) + (if line.Blank? then 0 else 1)
  {
    assert (lines + [line])[..|lines|] == lines;
  }

  /** Reading one more line: a parsed line is sent exactly when it completes a block. */
  lemma SampledPush(lines: seq<Line>, line: Line, sampleEvery: nat)
    requires sampleEvery >= 1
    ensures Sampled(lines + [line], sampleEvery) == Sampled(lines, sampleEvery)
              + (if line.Parsed? && Due(|ParsedTicks(lines)| + 1, sampleEvery) then [line.tick] else [])
  {
    LinesPush(lines, line);
    var p := ParsedTicks(lines);
    if line.Parsed? {
      assert ParsedTicks(lines + [line]) == p + [line.tick];
      EveryKthPush(p, line.tick, sampleEvery);
    } else {
      assert ParsedTicks(lines + [line]) == p;
    }
  }

  /** Sampling more of a file only appends. */
  lemma {:induction false} SampledPrefix(lines: seq<Line>, n: nat, sampleEvery: nat)
    requires sampleEvery >= 1 && n <= |lines|
    ensures Sampled(lines[..n], sampleEvery) <= Sampled(lines, sampleEvery)
    decreases |lines| - n
  {
    if n == |lines| {
      assert lines[..n] == lines;
    } else {
      SampledPush(lines[..n], lines[n], sampleEvery);
      assert lines[..n + 1] == lines[..n] + [lines[n]];
      SampledPrefix(lines, n + 1, sampleEvery);
    }
  }

  lemma NextLine(lines: seq<Line>, i: nat, sampleEvery: nat, due: bool)
    requires sampleEvery >= 1 && i < |lines| && due == Due(|ParsedTicks(lines[..i])| + 1, sampleEvery)
    ensures NonBlank(lines[..i + 1]) == NonBlank(lines[..i]) + (if lines[i].Blank? then 0 else 1)
    ensures |ParsedTicks(lines[..i + 1])| == |ParsedTicks(lines[..i])| + (if lines[i].Parsed? then 1 else 0)
    ensures Sampled(lines[..i + 1], sampleEvery)
            == if lines[i].Parsed? && due
               then Sampled(lines[..i], sampleEvery) + [lines[i].tick] else Sampled(lines[..i], sampleEvery)
  {
    assert lines[..i + 1] == lines[..i] + [lines[i]];
    LinesPush(lines[..i], lines[i]);
    SampledPush(lines[..i], lines[i], sampleEvery);
  }

  /** The replay loop when no channel is ever full: it stops at the end of the file, or earlier
      when a shutdown is seen before line `stopAt`. */
  method RunReplayFile(lines: seq<Line>, sampleEvery: nat, stopAt: nat)
    returns (sent: seq<Tick>, ticksRead: nat, processed: nat)
    requires sampleEvery >= 1
    ensures var n := if stopAt < |lines| then stopAt else |lines|;
            && sent == Sampled(lines[..n], sampleEvery)
            && ticksRead == NonBlank(lines[..n])
            && processed == |sent|
  {
    sent, ticksRead, processed := [], 0, 0;
    var sequence, i := 0, 0;
    while i < |lines| && i != stopAt
      invariant i <= |lines| && i <= stopAt
      invariant sent == Sampled(lines[..i], sampleEvery)
      invariant sequence == |ParsedTicks(lines[..i])|
      invariant ticksRead == NonBlank(lines[..i]) && processed == |sent|
    {
      var line := lines[i];
      ghost var due := Due(sequence + 1, sampleEvery);
      NextLine(lines, i, sampleEvery, due);
      i := i + 1;
      if line.Blank? {
        continue;
      }
      ticksRead := ticksRead + 1;
      if line.Malformed? {
        continue;
      }
      sequence := sequence + 1;
      if !Due(sequence, sampleEvery) {
        continue;
      }
      sent := sent + [line.tick];
      processed := processed + 1;
    }
  }
}
