/** Sequence notions shared by the models: sums, bounded tails, subsequences. */
module Sequences {

  /** The sum of `s`, accumulated left to right. */
  function Sum(s: seq<real>): real {
    if s == [] then 0.0 else Sum(s[..|s| - 1]) + s[|s| - 1]
  }

  /** The last `n` elements of `s`, or all of them when there are fewer. */
  function LastN<T>(s: seq<T>, n: nat): (r: seq<T>)
    ensures |r| == (if |s| <= n then |s| else n)
  {
    if |s| <= n then s else s[|s| - n..]
  }

  /** Keeping a tail of a tail and pushing one element is keeping a tail of the whole. */
  lemma LastNPush<T>(s: seq<T>, x: T, m: nat, n: nat)
    requires m <= n + 1
    ensures LastN(LastN(s, n) + [x], m) == LastN(s + [x], m)
  {
  }

  /** Trimming after appending a whole batch. */
  lemma LastNAppend<T>(s: seq<T>, t: seq<T>, n: nat)
    ensures LastN(LastN(s, n) + t, n) == LastN(s + t, n)
  {
  }

  /** `s` without its i-th element. */
  function RemoveAt<T>(s: seq<T>, i: nat): (r: seq<T>)
    requires i < |s|
    ensures |r| == |s| - 1
    ensures forall k :: 0 <= k < |r| ==> r[k] == if k < i then s[k] else s[k + 1]
  {
    s[..i] + s[i + 1..]
  }

  /** `a` is obtained from `b` by deleting elements, the order kept. */
  ghost predicate Subsequence<T>(a: seq<T>, b: seq<T>)
    decreases |b|
  {
    if a == [] then true
    else if b == [] then false
    else
      || Subsequence(a, b[..|b| - 1])
      || (a[|a| - 1] == b[|b| - 1] && Subsequence(a[..|a| - 1], b[..|b| - 1]))
  }

  lemma SubsequenceSkip<T>(a: seq<T>, b: seq<T>, x: T)
    requires Subsequence(a, b)
    ensures Subsequence(a, b + [x])
  {
    assert (b + [x])[..|b|] == b;
  }

  lemma SubsequenceTake<T>(a: seq<T>, b: seq<T>, x: T)
    requires Subsequence(a, b)
    ensures Subsequence(a + [x], b + [x])
  {
    assert (b + [x])[..|b|] == b && (a + [x])[..|a|] == a;
  }

  lemma {:induction false} SubsequenceDropLast<T>(a: seq<T>, b: seq<T>)
    requires Subsequence(a, b) && a != []
    ensures Subsequence(a[..|a| - 1], b)
    decreases |b|
  {
    var b' := b[..|b| - 1];
    assert b' + [b[|b| - 1]] == b;
    if Subsequence(a, b') {
      SubsequenceDropLast(a, b');
    }
    SubsequenceSkip(a[..|a| - 1], b', b[|b| - 1]);
  }

  /** Dropping the last but one. */
  lemma {:induction false} SubsequenceDropInner<T>(a: seq<T>, x: T, y: T, b: seq<T>)
    requires Subsequence(a + [x] + [y], b)
    ensures Subsequence(a + [y], b)
    decreases |b|
  {
    var all, b' := a + [x] + [y], b[..|b| - 1];
    assert b' + [b[|b| - 1]] == b;
    assert all[..|all| - 1] == a + [x] && (a + [x])[..|a|] == a;
    if Subsequence(all, b') {
      SubsequenceDropInner(a, x, y, b');
      SubsequenceSkip(a + [y], b', b[|b| - 1]);
    } else {
      SubsequenceDropLast(a + [x], b');
      SubsequenceTake(a, b', y);
    }
  }

  lemma {:induction false} SubsequenceShorter<T>(a: seq<T>, b: seq<T>)
    requires Subsequence(a, b)
    ensures |a| <= |b|
    decreases |b|
  {
    if a != [] {
      if Subsequence(a, b[..|b| - 1]) {
        SubsequenceShorter(a, b[..|b| - 1]);
      } else {
        SubsequenceShorter(a[..|a| - 1], b[..|b| - 1]);
      }
    }
  }

  lemma {:induction false} SubsequenceAll<T>(a: seq<T>, b: seq<T>)
    requires Subsequence(a, b) && |a| >= |b|
    ensures a == b
    decreases |b|
  {
    if b != [] {
      var b' := b[..|b| - 1];
      if Subsequence(a, b') {
        SubsequenceShorter(a, b');
      } else {
        SubsequenceAll(a[..|a| - 1], b');
        assert a == a[..|a| - 1] + [a[|a| - 1]] && b == b' + [b[|b| - 1]];
      }
    }
  }

  /** `all` is `a` and `b` merged, the order of each kept. */
  ghost predicate Interleaved<T>(a: seq<T>, b: seq<T>, all: seq<T>)
    decreases |all|
  {
    if all == [] then a == [] && b == []
    else
      var n := |all| - 1;
      || (a != [] && a[|a| - 1] == all[n] && Interleaved(a[..|a| - 1], b, all[..n]))
      || (b != [] && b[|b| - 1] == all[n] && Interleaved(a, b[..|b| - 1], all[..n]))
  }

  lemma InterleavedPush<T>(a: seq<T>, b: seq<T>, all: seq<T>, x: T)
    requires Interleaved(a, b, all)
    ensures Interleaved(a + [x], b, all + [x]) && Interleaved(a, b + [x], all + [x])
  {
    assert (a + [x])[..|a|] == a && (b + [x])[..|b|] == b && (all + [x])[..|all|] == all;
  }
}
