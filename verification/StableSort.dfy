/** A stable insertion sort by a total preorder, standing for the library sorts of both languages. */
module StableSort {

  /** `before(a, b)`: `a` may stand before `b`. */
  ghost predicate Preorder<T(!new)>(before: (T, T) -> bool) {
    && (forall a, b :: before(a, b) || before(b, a))
    && (forall a, b, c :: before(a, b) && before(b, c) ==> before(a, c))
  }

  ghost predicate Sorted<T>(s: seq<T>, before: (T, T) -> bool) {
    forall i, j :: 0 <= i < j < |s| ==> before(s[i], s[j])
  }

  /** Insert `x` behind everything that may stand before it. */
  function Insert<T>(x: T, s: seq<T>, before: (T, T) -> bool): (r: seq<T>)
    ensures |r| == |s| + 1
  {
    if s == [] then [x]
    else
      var n := |s| - 1;
      if before(s[n], x) then s + [x] else Insert(x, s[..n], before) + [s[n]]
  }

  function Sort<T>(s: seq<T>, before: (T, T) -> bool): (r: seq<T>)
    ensures |r| == |s|
  {
    if s == [] then [] else Insert(s[|s| - 1], Sort(s[..|s| - 1], before), before)
  }

  lemma InitMember<T>(s: seq<T>)
    requires s != []
    ensures multiset(s) == multiset(s[..|s| - 1]) + multiset{s[|s| - 1]}
  {
    assert s == s[..|s| - 1] + [s[|s| - 1]];
  }

  lemma {:induction false} InsertMembers<T>(x: T, s: seq<T>, before: (T, T) -> bool)
    ensures multiset(Insert(x, s, before)) == multiset(s) + multiset{x}
  {
    if s != [] {
      var n := |s| - 1;
      InitMember(s);
      InsertMembers(x, s[..n], before);
    }
  }

  lemma {:induction false} InsertBefore<T>(x: T, s: seq<T>, before: (T, T) -> bool, y: T)
    requires before(x, y) && forall i :: 0 <= i < |s| ==> before(s[i], y)
    ensures forall i :: 0 <= i < |s| + 1 ==> before(Insert(x, s, before)[i], y)
  {
    if s != [] {
      InsertBefore(x, s[..|s| - 1], before, y);
    }
  }

  lemma {:induction false} InsertSorted<T(!new)>(x: T, s: seq<T>, before: (T, T) -> bool)
    requires Preorder(before) && Sorted(s, before)
    ensures Sorted(Insert(x, s, before), before)
  {
    if s != [] {
      var n := |s| - 1;
      if !before(s[n], x) {
        InsertSorted(x, s[..n], before);
        InsertBefore(x, s[..n], before, s[n]);
      }
    }
  }

  lemma {:induction false} SortMembers<T>(s: seq<T>, before: (T, T) -> bool)
    ensures multiset(Sort(s, before)) == multiset(s)
  {
    if s != [] {
      var n := |s| - 1;
      SortMembers(s[..n], before);
      InsertMembers(s[n], Sort(s[..n], before), before);
      InitMember(s);
    }
  }

  lemma {:induction false} SortSorted<T(!new)>(s: seq<T>, before: (T, T) -> bool)
    requires Preorder(before)
    ensures Sorted(Sort(s, before), before)
  {
    if s != [] {
      SortSorted(s[..|s| - 1], before);
      InsertSorted(s[|s| - 1], Sort(s[..|s| - 1], before), before);
    }
  }

  // ----- stability -----

  /** Neither has to stand before the other. */
  predicate Tied<T>(a: T, b: T, before: (T, T) -> bool) {
    before(a, b) && before(b, a)
  }

  /** The elements tied with `x`, in order. */
  function Ties<T>(s: seq<T>, x: T, before: (T, T) -> bool): seq<T> {
    if s == [] then []
    else
      var n := |s| - 1;
      Ties(s[..n], x, before) + (if Tied(s[n], x, before) then [s[n]] else [])
  }

  lemma TiesPush<T>(s: seq<T>, y: T, x: T, before: (T, T) -> bool)
    ensures Ties(s + [y], x, before) == Ties(s, x, before) + (if Tied(y, x, before) then [y] else [])
  {
    assert (s + [y])[..|s|] == s;
  }

  lemma {:induction false} InsertStable<T(!new)>(y: T, s: seq<T>, x: T, before: (T, T) -> bool)
    requires Preorder(before)
    ensures Ties(Insert(y, s, before), x, before) == Ties(s, x, before) + (if Tied(y, x, before) then [y] else [])
  {
    if s == [] {
      TiesPush([], y, x, before);
    } else {
      var n := |s| - 1;
      if before(s[n], y) {
        TiesPush(s, y, x, before);
      } else {
        InsertStable(y, s[..n], x, before);
        TiesPush(Insert(y, s[..n], before), s[n], x, before);
      }
    }
  }

  /** Sorting keeps tied elements in their original order. */
  lemma {:induction false} SortStable<T(!new)>(s: seq<T>, x: T, before: (T, T) -> bool)
    requires Preorder(before)
    ensures Ties(Sort(s, before), x, before) == Ties(s, x, before)
  {
    if s != [] {
      var n := |s| - 1;
      SortStable(s[..n], x, before);
      InsertStable(s[n], Sort(s[..n], before), x, before);
    }
  }

  ghost predicate SameTies<T(!new)>(a: seq<T>, b: seq<T>, before: (T, T) -> bool) {
    forall x :: Ties(a, x, before) == Ties(b, x, before)
  }

  lemma {:induction false} TiesMember<T>(s: seq<T>, x: T, before: (T, T) -> bool, i: nat)
    requires i < |Ties(s, x, before)|
    ensures exists j :: 0 <= j < |s| && s[j] == Ties(s, x, before)[i] && Tied(s[j], x, before)
  {
    var n := |s| - 1;
    if i < |Ties(s[..n], x, before)| {
      TiesMember(s[..n], x, before, i);
      var j :| 0 <= j < |s[..n]| && s[..n][j] == Ties(s[..n], x, before)[i] && Tied(s[..n][j], x, before);
      assert s[j] == Ties(s, x, before)[i];
    }
  }

  /** In sorted sequences with the same ties, the last elements coincide. */
  lemma LastCoincides<T(!new)>(a: seq<T>, b: seq<T>, before: (T, T) -> bool)
    requires Preorder(before) && Sorted(a, before) && Sorted(b, before) && SameTies(a, b, before)
    requires a != [] && b != []
    ensures a[|a| - 1] == b[|b| - 1]
  {
    var x, y := a[|a| - 1], b[|b| - 1];
    assert before(x, x) && before(y, y);
    assert Ties(a, x, before) == Ties(b, x, before);
    assert Ties(a, y, before) == Ties(b, y, before);
    TiesMember(b, x, before, |Ties(a, x, before)| - 1);
    TiesMember(a, y, before, |Ties(b, y, before)| - 1);
    var i :| 0 <= i < |b| && Tied(b[i], x, before);
    var j :| 0 <= j < |a| && Tied(a[j], y, before);
    assert before(b[i], y) && before(a[j], x);
    assert Tied(y, x, before);
  }

  lemma DropLastTies<T(!new)>(a: seq<T>, b: seq<T>, before: (T, T) -> bool)
    requires SameTies(a, b, before) && a != [] && b != [] && a[|a| - 1] == b[|b| - 1]
    ensures SameTies(a[..|a| - 1], b[..|b| - 1], before)
  {
    var a', b' := a[..|a| - 1], b[..|b| - 1];
    forall x ensures Ties(a', x, before) == Ties(b', x, before) {
      assert Ties(a, x, before) == Ties(b, x, before);
      var ta, tb := Ties(a', x, before), Ties(b', x, before);
      if Tied(a[|a| - 1], x, before) {
        assert (ta + [a[|a| - 1]])[..|ta|] == ta && (tb + [b[|b| - 1]])[..|tb|] == tb;
      } else {
        assert ta + [] == ta && tb + [] == tb;
      }
    }
  }

  /** The last element is among its own ties, so only an empty sequence shares them with none. */
  lemma SameEmptiness<T(!new)>(a: seq<T>, b: seq<T>, before: (T, T) -> bool)
    requires Preorder(before) && SameTies(a, b, before) && a != []
    ensures b != []
  {
    var x := a[|a| - 1];
    assert Tied(x, x, before);
    assert Ties(a, x, before) == Ties(b, x, before);
  }

  /** Sorted and stable says it all: only one sequence is both. */
  lemma {:induction false} StableSortUnique<T(!new)>(a: seq<T>, b: seq<T>, before: (T, T) -> bool)
    requires Preorder(before) && Sorted(a, before) && Sorted(b, before) && SameTies(a, b, before)
    ensures a == b
    decreases |a|
  {
    if a != [] {
      SameEmptiness(a, b, before);
    }
    if b != [] {
      SameEmptiness(b, a, before);
      LastCoincides(a, b, before);
      DropLastTies(a, b, before);
      StableSortUnique(a[..|a| - 1], b[..|b| - 1], before);
      assert a == a[..|a| - 1] + [a[|a| - 1]] && b == b[..|b| - 1] + [b[|b| - 1]];
    }
  }
}
