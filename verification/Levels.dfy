/** Price levels: totals, sorting by price, and what permuting levels leaves unchanged. */
module Levels {
  import opened Sequences
  import opened StableSort

  datatype Level = Level(price: real, qty: real) {
    function Notional(): real {
      price * qty
    }
  }

  function TotalQty(levels: seq<Level>): real {
    if levels == [] then 0.0 else TotalQty(levels[..|levels| - 1]) + levels[|levels| - 1].qty
  }

  function TotalNotional(levels: seq<Level>): real {
    if levels == [] then 0.0
    else TotalNotional(levels[..|levels| - 1]) + levels[|levels| - 1].Notional()
  }

  function Map<A, B>(f: A -> B, s: seq<A>): (r: seq<B>)
    ensures |r| == |s|
    ensures forall i :: 0 <= i < |s| ==> r[i] == f(s[i])
  {
    if s == [] then [] else Map(f, s[..|s| - 1]) + [f(s[|s| - 1])]
  }

  // ----- best price and sorting; `desc` for bids, ascending for asks -----

  /** A price that may stand before another: at least as good for its side. */
  predicate Before(a: real, b: real, desc: bool) {
    if desc then a >= b else a <= b
  }

  function PriceOrder(desc: bool): (Level, Level) -> bool {
    (a: Level, b: Level) => Before(a.price, b.price, desc)
  }

  lemma PriceOrderIsPreorder(desc: bool)
    ensures Preorder(PriceOrder(desc))
  {
  }

  function SortByPrice(levels: seq<Level>, desc: bool): (r: seq<Level>)
    ensures |r| == |levels|
  {
    Sort(levels, PriceOrder(desc))
  }

  /** `price` is quoted, and no quoted price is better. */
  ghost predicate IsBest(levels: seq<Level>, desc: bool, price: real) {
    && (exists i :: 0 <= i < |levels| && levels[i].price == price)
    && (forall i :: 0 <= i < |levels| ==> Before(price, levels[i].price, desc))
  }

  function BestPrice(levels: seq<Level>, desc: bool): real
    requires levels != []
  {
    var n := |levels| - 1;
    var last := levels[n].price;
    if n == 0 then last
    else
      var p := BestPrice(levels[..n], desc);
      if Before(p, last, desc) then p else last
  }

  /** The best price is what its name says, and no other price is. */
  lemma {:induction false} BestPriceIs(levels: seq<Level>, desc: bool, p: real)
    requires levels != []
    ensures IsBest(levels, desc, p) <==> p == BestPrice(levels, desc)
  {
    var n := |levels| - 1;
    if n > 0 {
      BestPriceIs(levels[..n], desc, BestPrice(levels[..n], desc));
      var i :| 0 <= i < n && levels[..n][i].price == BestPrice(levels[..n], desc);
      assert levels[i].price == BestPrice(levels[..n], desc);
      forall j | 0 <= j < |levels| ensures Before(BestPrice(levels, desc), levels[j].price, desc) {
        assert j < n ==> levels[..n][j] == levels[j];
      }
    }
    assert levels[n].price == BestPrice(levels, desc) || n > 0;
  }

  /** Where the best price is quoted. */
  lemma BestLevel(levels: seq<Level>, desc: bool) returns (i: nat)
    requires levels != []
    ensures i < |levels| && levels[i].price == BestPrice(levels, desc)
    ensures forall j :: 0 <= j < |levels| ==> Before(BestPrice(levels, desc), levels[j].price, desc)
  {
    BestPriceIs(levels, desc, BestPrice(levels, desc));
    i :| 0 <= i < |levels| && levels[i].price == BestPrice(levels, desc);
  }

  lemma SameMembers<T>(a: seq<T>, b: seq<T>, i: nat) returns (j: nat)
    requires multiset(a) == multiset(b) && i < |a|
    ensures j < |b| && b[j] == a[i]
  {
    assert a[i] in multiset(a);
    assert a[i] in b;
    j :| 0 <= j < |b| && b[j] == a[i];
  }

  /** The first level after sorting carries the best price. */
  lemma SortedHead(levels: seq<Level>, desc: bool)
    requires levels != []
    ensures SortByPrice(levels, desc)[0].price == BestPrice(levels, desc)
  {
    var sorted := SortByPrice(levels, desc);
    PriceOrderIsPreorder(desc);
    SortSorted(levels, PriceOrder(desc));
    SortMembers(levels, PriceOrder(desc));
    BestPermuted(sorted, levels, desc);
    forall i | 0 <= i < |sorted| ensures Before(sorted[0].price, sorted[i].price, desc) {
      if i > 0 {
        assert PriceOrder(desc)(sorted[0], sorted[i]);
      }
    }
    BestPriceIs(sorted, desc, sorted[0].price);
  }

  // ----- permutations -----

  lemma BestPermuted(a: seq<Level>, b: seq<Level>, desc: bool)
    requires multiset(a) == multiset(b) && a != [] && b != []
    ensures BestPrice(a, desc) == BestPrice(b, desc)
  {
    var p := BestPrice(b, desc);
    var i := BestLevel(b, desc);
    var k := SameMembers(b, a, i);
    forall i | 0 <= i < |a| ensures Before(p, a[i].price, desc) {
      var j := SameMembers(a, b, i);
    }
    BestPriceIs(a, desc, p);
  }

  lemma RemoveMember<T>(s: seq<T>, j: nat)
    requires j < |s|
    ensures multiset(s) == multiset(RemoveAt(s, j)) + multiset{s[j]}
  {
    assert s == s[..j] + ([s[j]] + s[j + 1..]);
  }

  lemma CancelMember<T>(x: multiset<T>, y: multiset<T>, e: T)
    requires x + multiset{e} == y + multiset{e}
    ensures x == y
  {
    assert (x + multiset{e}) - multiset{e} == x;
  }

  /** A permutation of `a` holds the last element of `a` somewhere; without it, it permutes the rest. */
  lemma FindLast<T>(a: seq<T>, b: seq<T>) returns (j: nat)
    requires multiset(a) == multiset(b) && a != []
    ensures j < |b| && b[j] == a[|a| - 1]
    ensures multiset(RemoveAt(b, j)) == multiset(a[..|a| - 1])
  {
    var n := |a| - 1;
    j := SameMembers(a, b, n);
    RemoveMember(b, j);
    InitMember(a);
    CancelMember(multiset(RemoveAt(b, j)), multiset(a[..n]), a[n]);
  }

  lemma {:induction false} TotalsRemove(levels: seq<Level>, j: nat)
    requires j < |levels|
    ensures TotalQty(levels) == TotalQty(RemoveAt(levels, j)) + levels[j].qty
    ensures TotalNotional(levels) == TotalNotional(RemoveAt(levels, j)) + levels[j].Notional()
  {
    var n := |levels| - 1;
    var rest := RemoveAt(levels, j);
    if j == n {
      assert rest == levels[..n];
    } else {
      TotalsRemove(levels[..n], j);
      assert rest[..n - 1] == RemoveAt(levels[..n], j);
      assert rest[n - 1] == levels[n];
    }
  }

  lemma {:induction false} TotalsPermuted(a: seq<Level>, b: seq<Level>)
    requires multiset(a) == multiset(b)
    ensures TotalQty(a) == TotalQty(b) && TotalNotional(a) == TotalNotional(b)
    decreases |a|
  {
    assert |multiset(a)| == |a| && |multiset(b)| == |b|;
    if a != [] {
      var j := FindLast(a, b);
      TotalsRemove(b, j);
      TotalsPermuted(a[..|a| - 1], RemoveAt(b, j));
    }
  }

  lemma MapOfRest<A, B>(f: A -> B, s: seq<A>, rest: seq<A>, j: nat)
    requires j < |s| && rest == RemoveAt(s, j)
    ensures Map(f, rest) == RemoveAt(Map(f, s), j)
  {
    var a, b := Map(f, rest), RemoveAt(Map(f, s), j);
    assert |a| == |b|;
    forall k | 0 <= k < |a| ensures a[k] == b[k] {
      assert a[k] == f(rest[k]);
    }
  }

  lemma MapRemove<A, B>(f: A -> B, s: seq<A>, j: nat)
    requires j < |s|
    ensures multiset(Map(f, s)) == multiset(Map(f, RemoveAt(s, j))) + multiset{f(s[j])}
  {
    MapOfRest(f, s, RemoveAt(s, j), j);
    RemoveMember(Map(f, s), j);
  }

  lemma {:induction false} MapPermuted<A, B>(f: A -> B, a: seq<A>, b: seq<A>)
    requires multiset(a) == multiset(b)
    ensures multiset(Map(f, a)) == multiset(Map(f, b))
    decreases |a|
  {
    assert |multiset(a)| == |a| && |multiset(b)| == |b|;
    if a != [] {
      var n := |a| - 1;
      var j := FindLast(a, b);
      MapPermuted(f, a[..n], RemoveAt(b, j));
      MapRemove(f, b, j);
      MapRemove(f, a, n);
      assert RemoveAt(a, n) == a[..n];
    }
  }

  /** Sorting shows the best price first and keeps the totals. */
  lemma SortKeeps(levels: seq<Level>, desc: bool)
    requires levels != []
    ensures SortByPrice(levels, desc)[0].price == BestPrice(levels, desc)
    ensures TotalQty(SortByPrice(levels, desc)) == TotalQty(levels)
    ensures TotalNotional(SortByPrice(levels, desc)) == TotalNotional(levels)
  {
    SortedHead(levels, desc);
    SortMembers(levels, PriceOrder(desc));
    TotalsPermuted(SortByPrice(levels, desc), levels);
  }
}
