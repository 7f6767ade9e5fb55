/** Laws of Kalshi normalisation: the unit does not matter, the order of levels does not matter,
    an OK book is sound, and thresholds only gate. */
module KalshiLaws {
  import opened Wrappers
  import opened Levels
  import opened KalshiBook

  /** The unit is recognised as cents exactly when every deciding price lies above 1 and none above
      100. So a book in cents that quotes a level at 1 cent beside dearer ones is ambiguous. */
  lemma CentsIff(levels: seq<Level>)
    ensures DetectUnit(levels) == Some(Cents) <==>
            levels != [] && forall l :: l in levels ==> 1.0 < l.price <= 100.0
    ensures DetectUnit(levels) == Some(Dollars) <==> levels != [] && forall l :: l in levels ==> l.price <= 1.0
    ensures (exists l :: l in levels && l.price <= 1.0) && (exists l :: l in levels && l.price > 1.0)
            ==> DetectUnit(levels) == None
  {
    AnyIs(levels, 1.0);
    AnyIs(levels, 100.0);
    if levels != [] {
      assert levels[0] in levels;
    }
  }

  // ----- unit invariance -----

  function PerHundred(l: Level): Level {
    Level(l.price / 100.0, l.qty)
  }

  /** The same book with every price divided by 100. */
  function InDollars(s: Sides): Sides {
    Sides(Map(PerHundred, s.yesBids), Map(PerHundred, s.yesAsks), Map(PerHundred, s.noBids), Map(PerHundred, s.noAsks))
  }

  lemma MapConcat<A, B>(f: A -> B, a: seq<A>, b: seq<A>)
    ensures Map(f, a + b) == Map(f, a) + Map(f, b)
  {
  }

  lemma DollarUnit(levels: seq<Level>)
    requires levels != [] && forall l :: l in levels ==> 1.0 < l.price <= 100.0
    ensures DetectUnit(levels) == Some(Cents)
    ensures DetectUnit(Map(PerHundred, levels)) == Some(Dollars)
  {
    CentsIff(levels);
    DollarsOfCents(levels);
  }

  lemma QuotedInDollars(levels: seq<Level>)
    ensures Map(ToDollars(Dollars), Map(PerHundred, levels)) == Map(ToDollars(Cents), levels)
  {
    var a, b := Map(ToDollars(Dollars), Map(PerHundred, levels)), Map(ToDollars(Cents), levels);
    forall i | 0 <= i < |a| ensures a[i] == b[i] {
      assert a[i] == ToDollars(Dollars)(PerHundred(levels[i]));
    }
  }

  lemma ComplementOfLevel(l: Level)
    ensures ToDollars(Dollars)(Complement(Dollars)(PerHundred(l))) == ToDollars(Cents)(Complement(Cents)(l))
  {
  }

  lemma ComplementInDollars(levels: seq<Level>)
    ensures Map(ToDollars(Dollars), Map(Complement(Dollars), Map(PerHundred, levels)))
            == Map(ToDollars(Cents), Map(Complement(Cents), levels))
  {
    var scaled, turned := Map(PerHundred, levels), Map(Complement(Cents), levels);
    var a, b := Map(ToDollars(Dollars), Map(Complement(Dollars), scaled)), Map(ToDollars(Cents), turned);
    forall i | 0 <= i < |a| ensures a[i] == b[i] {
      ComplementOfLevel(levels[i]);
    }
  }

  lemma {:induction false} TooDearInDollars(levels: seq<Level>)
    ensures AnyAbove(levels, 100.0) <==> AnyAbove(Map(PerHundred, levels), 1.0)
  {
    if levels != [] {
      var n := |levels| - 1;
      TooDearInDollars(levels[..n]);
      assert Map(PerHundred, levels)[..n] == Map(PerHundred, levels[..n]);
    }
  }

  /** Deriving a side commutes with the change of unit. */
  lemma DerivedInDollars(quoted: seq<Level>, opposite: seq<Level>)
    ensures var cents := Derived(Cents, quoted, opposite);
            var dollars := Derived(Dollars, Map(PerHundred, quoted), Map(PerHundred, opposite));
            && (cents.Some? <==> dollars.Some?)
            && (cents.Some? ==> Map(ToDollars(Dollars), dollars.value) == Map(ToDollars(Cents), cents.value))
  {
    TooDearInDollars(opposite);
    if quoted == [] && opposite != [] {
      ComplementInDollars(opposite);
    } else {
      QuotedInDollars(quoted);
    }
  }

  /** A book quoted in cents gives the same result, to the last figure, as the same book in
      dollars; sides derived from the other outcome included. */
  lemma {:induction false} UnitInvariance(s: Sides, th: Thresholds)
    requires Deciding(s) != [] && forall l :: l in Deciding(s) ==> 1.0 < l.price <= 100.0
    ensures Normalised(InDollars(s), th) == Normalised(s, th)
  {
    UnitOfSides(s);
    SidesInDollars(s);
    assert YesSides(InDollars(s)) == YesSides(s);
  }

  lemma UnitOfSides(s: Sides)
    requires Deciding(s) != [] && forall l :: l in Deciding(s) ==> 1.0 < l.price <= 100.0
    ensures DetectUnit(Deciding(s)) == Some(Cents) && DetectUnit(Deciding(InDollars(s))) == Some(Dollars)
  {
    MapConcat(PerHundred, s.yesBids, s.yesAsks);
    MapConcat(PerHundred, s.noBids, s.noAsks);
    assert Deciding(InDollars(s)) == Map(PerHundred, Deciding(s));
    DollarUnit(Deciding(s));
  }

  lemma SidesInDollars(s: Sides)
    ensures SidesIn(Dollars, InDollars(s)) == SidesIn(Cents, s)
  {
    DerivedInDollars(s.yesBids, s.noAsks);
    DerivedInDollars(s.yesAsks, s.noBids);
  }

  lemma DollarsOfCents(levels: seq<Level>)
    requires levels != [] && forall l :: l in levels ==> l.price <= 100.0
    ensures DetectUnit(Map(PerHundred, levels)) == Some(Dollars)
  {
    var scaled := Map(PerHundred, levels);
    forall l | l in scaled ensures l.price <= 1.0 {
      var i :| 0 <= i < |scaled| && scaled[i] == l;
      assert levels[i] in levels;
    }
    CentsIff(scaled);
  }

  /** A side that is missing would have to be derived from a price above one contract. */
  predicate TooDear(quoted: seq<Level>, opposite: seq<Level>) {
    quoted == [] && AnyAbove(opposite, 100.0)
  }

  predicate OutOfRange(s: Sides) {
    TooDear(s.yesBids, s.noAsks) || TooDear(s.yesAsks, s.noBids)
  }

  lemma MissingSide(quoted: seq<Level>, opposite: seq<Level>)
    ensures Derived(Dollars, Map(PerHundred, quoted), Map(PerHundred, opposite)) == None <==> TooDear(quoted, opposite)
  {
    TooDearInDollars(opposite);
  }

  lemma DollarSidesMissing(s: Sides)
    requires DetectUnit(Deciding(InDollars(s))) == Some(Dollars)
    ensures YesSides(InDollars(s)) == None <==> OutOfRange(s)
  {
    MissingSide(s.yesBids, s.noAsks);
    MissingSide(s.yesAsks, s.noBids);
  }

  lemma ClassifyReportsDepth(bids: seq<Level>, asks: seq<Level>, th: Thresholds)
    ensures Classify(bids, asks, th).depthNotional == Some(TotalNotional(bids) + TotalNotional(asks))
  {
  }

  lemma AmbiguousIff(s: Sides, th: Thresholds)
    ensures Normalised(s, th) == AMBIGUOUS <==> YesSides(s) == None
  {
    var sides := YesSides(s);
    if sides.Some? {
      ClassifyReportsDepth(sides.value.0, sides.value.1, th);
    }
  }

  /** For a book that shows itself to be in cents by a deciding price above 1, the unit does not
      matter exactly when every deciding price is above 1, or a missing side is out of range in
      either unit. */
  lemma {:induction false} VisiblyCentsIff(s: Sides, th: Thresholds)
    requires forall l :: l in Deciding(s) ==> l.price <= 100.0
    requires exists l :: l in Deciding(s) && l.price > 1.0
    ensures Normalised(InDollars(s), th) == Normalised(s, th) <==>
            (forall l :: l in Deciding(s) ==> l.price > 1.0) || OutOfRange(s)
  {
    if forall l :: l in Deciding(s) ==> l.price > 1.0 {
      UnitInvariance(s, th);
    } else {
      CentsIff(Deciding(s));
      MapConcat(PerHundred, s.yesBids, s.yesAsks);
      MapConcat(PerHundred, s.noBids, s.noAsks);
      assert Deciding(InDollars(s)) == Map(PerHundred, Deciding(s));
      DollarsOfCents(Deciding(s));
      DollarSidesMissing(s);
      AmbiguousIff(s, th);
      AmbiguousIff(InDollars(s), th);
    }
  }

  /** One level at 1 cent makes the difference: in dollars this book trades, in cents it is rejected. */
  lemma {:induction false} OneCentBreaksInvariance()
    ensures var s := Sides([Level(48.0, 400.0), Level(1.0, 10.0)], [Level(50.0, 400.0)], [], []);
            var th := Thresholds(100.0, 0.05);
            Normalised(s, th) == AMBIGUOUS && Normalised(InDollars(s), th).Tradable()
  {
    var bids, asks := [Level(48.0, 400.0), Level(1.0, 10.0)], [Level(50.0, 400.0)];
    MixedIsAmbiguous(bids, asks, Thresholds(100.0, 0.05));
    var dollarBids, dollarAsks := [Level(0.48, 400.0), Level(0.01, 10.0)], [Level(0.5, 400.0)];
    assert Map(PerHundred, bids) == dollarBids && Map(PerHundred, asks) == dollarAsks;
    NarrowDollarsTrade(dollarBids, dollarAsks);
    assert InDollars(Sides(bids, asks, [], [])) == Sides(dollarBids, dollarAsks, [], []);
  }

  lemma MixedIsAmbiguous(bids: seq<Level>, asks: seq<Level>, th: Thresholds)
    requires |bids| == 2 && bids[0].price > 1.0 >= bids[1].price
    ensures Normalised(Sides(bids, asks, [], []), th) == AMBIGUOUS
  {
    var quoted := bids + asks;
    assert quoted[0] == bids[0] && quoted[1] == bids[1];
    CentsIff(quoted);
  }

  lemma NarrowDollarsTrade(bids: seq<Level>, asks: seq<Level>)
    requires bids == [Level(0.48, 400.0), Level(0.01, 10.0)] && asks == [Level(0.5, 400.0)]
    ensures Normalised(Sides(bids, asks, [], []), Thresholds(100.0, 0.05)).Tradable()
  {
    DollarSides(bids, asks);
    NarrowBookTrades(bids, asks);
  }

  lemma DollarsStay(levels: seq<Level>)
    ensures Map(ToDollars(Dollars), levels) == levels
  {
    var a := Map(ToDollars(Dollars), levels);
    forall i | 0 <= i < |a| ensures a[i] == levels[i] {
      assert a[i] == ToDollars(Dollars)(levels[i]);
    }
  }

  lemma DollarSides(bids: seq<Level>, asks: seq<Level>)
    requires bids != [] && asks != []
    requires forall l :: l in bids || l in asks ==> l.price <= 1.0
    ensures YesSides(Sides(bids, asks, [], [])) == Some((bids, asks))
  {
    var s := Sides(bids, asks, [], []);
    assert Deciding(s) == bids + asks;
    CentsIff(bids + asks);
    DollarsStay(bids);
    DollarsStay(asks);
  }

  lemma NarrowBookTrades(bids: seq<Level>, asks: seq<Level>)
    requires bids == [Level(0.48, 400.0), Level(0.01, 10.0)] && asks == [Level(0.5, 400.0)]
    ensures Classify(bids, asks, Thresholds(100.0, 0.05)).Tradable()
  {
    assert bids[..1] == [bids[0]] && bids[..1][..0] == [] && asks[..0] == [];
    assert TotalNotional(bids[..1]) == 192.0;
    assert BestPrice(bids[..1], true) == 0.48;
  }

  // ----- permutation invariance -----

  ghost predicate Permuted<T>(a: seq<T>, b: seq<T>) {
    multiset(a) == multiset(b)
  }

  ghost predicate SidePermuted(a: RawSide, b: RawSide) {
    if a.Listed? && b.Listed? then Permuted(a.levels, b.levels) else a == b
  }

  ghost predicate PayloadPermuted(a: Payload, b: Payload) {
    && SidePermuted(a.yesBid, b.yesBid) && SidePermuted(a.yesAsk, b.yesAsk)
    && SidePermuted(a.noBid, b.noBid) && SidePermuted(a.noAsk, b.noAsk)
    && SidePermuted(a.yesBids, b.yesBids) && SidePermuted(a.yesAsks, b.yesAsks)
    && SidePermuted(a.noBids, b.noBids) && SidePermuted(a.noAsks, b.noAsks)
  }

  lemma PermutedMembers<T>(a: seq<T>, b: seq<T>)
    requires Permuted(a, b)
    ensures |a| == |b| && forall x :: x in a <==> x in b
  {
    assert |multiset(a)| == |a| && |multiset(b)| == |b|;
    forall x ensures x in a <==> x in b {
      assert x in a <==> x in multiset(a);
      assert x in b <==> x in multiset(b);
    }
  }

  lemma ParsedSidePermuted(a: RawSide, b: RawSide)
    requires SidePermuted(a, b)
    ensures ParsedSide(a).Some? <==> ParsedSide(b).Some?
    ensures ParsedSide(a).Some? ==> Permuted(ParsedSide(a).value, ParsedSide(b).value)
  {
    if a.Listed? {
      PermutedMembers(a.levels, b.levels);
      MapPermuted(LevelOrZero, a.levels, b.levels);
    }
  }

  lemma PickPermuted(a: RawSide, a': RawSide, b: RawSide, b': RawSide)
    requires SidePermuted(a, b) && SidePermuted(a', b')
    ensures SidePermuted(Pick(a, a'), Pick(b, b'))
    ensures Pick(a, a') == Absent <==> Pick(b, b') == Absent
  {
    if a.Listed? {
      PermutedMembers(a.levels, b.levels);
    }
  }

  ghost predicate SidesPermuted(s: Sides, t: Sides) {
    && Permuted(s.yesBids, t.yesBids) && Permuted(s.yesAsks, t.yesAsks)
    && Permuted(s.noBids, t.noBids) && Permuted(s.noAsks, t.noAsks)
  }

  lemma {:induction false} ParsedSidesPermuted(p: Payload, q: Payload)
    requires PayloadPermuted(p, q)
    ensures ParsedSides(p).Some? <==> ParsedSides(q).Some?
    ensures ParsedSides(p).Some? ==> SidesPermuted(ParsedSides(p).value, ParsedSides(q).value)
  {
    PickPermuted(p.yesBid, p.yesBids, q.yesBid, q.yesBids);
    PickPermuted(p.yesAsk, p.yesAsks, q.yesAsk, q.yesAsks);
    PickPermuted(p.noBid, p.noBids, q.noBid, q.noBids);
    PickPermuted(p.noAsk, p.noAsks, q.noAsk, q.noAsks);
    ParsedSidePermuted(Pick(p.yesBid, p.yesBids), Pick(q.yesBid, q.yesBids));
    ParsedSidePermuted(Pick(p.yesAsk, p.yesAsks), Pick(q.yesAsk, q.yesAsks));
    ParsedSidePermuted(Pick(p.noBid, p.noBids), Pick(q.noBid, q.noBids));
    ParsedSidePermuted(Pick(p.noAsk, p.noAsks), Pick(q.noAsk, q.noAsks));
  }

  lemma ConcatPermuted<T>(a: seq<T>, a': seq<T>, b: seq<T>, b': seq<T>)
    requires Permuted(a, b) && Permuted(a', b')
    ensures Permuted(a + a', b + b')
  {
  }

  lemma AnyPermuted(a: seq<Level>, b: seq<Level>, limit: real)
    requires Permuted(a, b)
    ensures |a| == |b| && AnyAbove(a, limit) == AnyAbove(b, limit) && AnyAtMost(a, limit) == AnyAtMost(b, limit)
  {
    PermutedMembers(a, b);
    AnyIs(a, limit);
    AnyIs(b, limit);
  }

  lemma DetectPermuted(a: seq<Level>, b: seq<Level>)
    requires Permuted(a, b)
    ensures DetectUnit(a) == DetectUnit(b)
  {
    AnyPermuted(a, b, 1.0);
    AnyPermuted(a, b, 100.0);
  }

  lemma DecidingPermuted(s: Sides, t: Sides)
    requires SidesPermuted(s, t)
    ensures DetectUnit(Deciding(s)) == DetectUnit(Deciding(t))
  {
    ConcatPermuted(s.yesBids, s.yesAsks, t.yesBids, t.yesAsks);
    ConcatPermuted(s.noBids, s.noAsks, t.noBids, t.noAsks);
    PermutedMembers(s.yesBids + s.yesAsks, t.yesBids + t.yesAsks);
    DetectPermuted(Deciding(s), Deciding(t));
  }

  lemma DerivedPermuted(u: Unit, a: seq<Level>, a': seq<Level>, b: seq<Level>, b': seq<Level>)
    requires Permuted(a, b) && Permuted(a', b')
    ensures var x, y := Derived(u, a, a'), Derived(u, b, b');
            && (x.Some? <==> y.Some?)
            && (x.Some? ==> Permuted(Map(ToDollars(u), x.value), Map(ToDollars(u), y.value)))
  {
    PermutedMembers(a, b);
    AnyPermuted(a', b', One(u));
    MapPermuted(Complement(u), a', b');
    var x, y := Derived(u, a, a'), Derived(u, b, b');
    if x.Some? {
      MapPermuted(ToDollars(u), x.value, y.value);
    }
  }

  lemma ClassifyPermuted(bids: seq<Level>, asks: seq<Level>, bids': seq<Level>, asks': seq<Level>, th: Thresholds)
    requires Permuted(bids, bids') && Permuted(asks, asks')
    ensures Classify(bids, asks, th) == Classify(bids', asks', th)
  {
    PermutedMembers(bids, bids');
    PermutedMembers(asks, asks');
    TotalsPermuted(bids, bids');
    TotalsPermuted(asks, asks');
    if bids != [] && asks != [] {
      BestPermuted(bids, bids', true);
      BestPermuted(asks, asks', false);
    }
  }

  lemma {:induction false} YesSidesPermuted(s: Sides, t: Sides)
    requires SidesPermuted(s, t)
    ensures YesSides(s).Some? <==> YesSides(t).Some?
    ensures YesSides(s).Some? ==> Permuted(YesSides(s).value.0, YesSides(t).value.0)
    ensures YesSides(s).Some? ==> Permuted(YesSides(s).value.1, YesSides(t).value.1)
  {
    DecidingPermuted(s, t);
    var unit := DetectUnit(Deciding(s));
    if unit.Some? {
      DerivedPermuted(unit.value, s.yesBids, s.noAsks, t.yesBids, t.noAsks);
      DerivedPermuted(unit.value, s.yesAsks, s.noBids, t.yesAsks, t.noBids);
    }
  }

  lemma {:induction false} NormalisedPermuted(s: Sides, t: Sides, th: Thresholds)
    requires SidesPermuted(s, t)
    ensures Normalised(s, th) == Normalised(t, th)
  {
    YesSidesPermuted(s, t);
    var a, b := YesSides(s), YesSides(t);
    if a.Some? {
      ClassifyPermuted(a.value.0, a.value.1, b.value.0, b.value.1, th);
    }
  }

  /** Listing the levels of any side in another order never changes the result, malformed levels
      and mixed shapes included. */
  lemma {:induction false} OrderIrrelevant(p: Payload, q: Payload, th: Thresholds)
    requires PayloadPermuted(p, q)
    ensures ParsedBook(Book(p), th) == ParsedBook(Book(q), th)
  {
    ParsedSidesPermuted(p, q);
    if ParsedSides(p).Some? {
      NormalisedPermuted(ParsedSides(p).value, ParsedSides(q).value, th);
    }
  }

  // ----- soundness -----

  ghost predicate Nonnegative(levels: seq<Level>) {
    forall l :: l in levels ==> l.price >= 0.0 && l.qty >= 0.0
  }

  ghost predicate NonnegativeSides(s: Sides) {
    Nonnegative(s.yesBids) && Nonnegative(s.yesAsks) && Nonnegative(s.noBids) && Nonnegative(s.noAsks)
  }

  lemma ParsedNonnegative(raw: RawSide)
    requires ParsedSide(raw).Some?
    ensures Nonnegative(ParsedSide(raw).value)
  {
    if raw.Listed? {
      var levels := ParsedSide(raw).value;
      forall l | l in levels ensures l.price >= 0.0 && l.qty >= 0.0 {
        var i :| 0 <= i < |levels| && levels[i] == l;
        assert raw.levels[i] in raw.levels;
      }
    }
  }

  /** Prices in dollars lie between 0 and 1 on a side that was quoted or derived. */
  lemma SideInRange(u: Unit, quoted: seq<Level>, opposite: seq<Level>)
    requires Nonnegative(quoted) && Nonnegative(opposite)
    requires forall l :: l in quoted ==> l.price <= One(u)
    requires Derived(u, quoted, opposite).Some?
    ensures forall l :: l in Map(ToDollars(u), Derived(u, quoted, opposite).value) ==> 0.0 <= l.price <= 1.0 && l.qty >= 0.0
  {
    AnyIs(opposite, One(u));
    var side := Derived(u, quoted, opposite).value;
    var mapped := Map(ToDollars(u), side);
    forall l | l in mapped ensures 0.0 <= l.price <= 1.0 && l.qty >= 0.0 {
      var i :| 0 <= i < |mapped| && mapped[i] == l;
      if quoted == [] && opposite != [] {
        assert opposite[i] in opposite;
      } else {
        assert quoted[i] in quoted;
      }
    }
  }

  lemma DetectedBound(levels: seq<Level>, l: Level)
    requires DetectUnit(levels).Some? && l in levels
    ensures l.price <= One(DetectUnit(levels).value)
  {
    CentsIff(levels);
  }

  /** An OK book: prices between 0 and 1, not crossed, the best of its two sides, thresholds met. */
  ghost predicate Sound(book: VenueBook, bids: seq<Level>, asks: seq<Level>, th: Thresholds) {
    && book.bestBid.Some? && book.bestAsk.Some? && book.depthNotional.Some?
    && IsBest(bids, true, book.bestBid.value) && IsBest(asks, false, book.bestAsk.value)
    && 0.0 <= book.bestBid.value < book.bestAsk.value <= 1.0
    && book.bestAsk.value - book.bestBid.value <= th.spreadMax
    && book.depthNotional.value >= th.depthNotionalMin
    && book.depthNotional.value == TotalNotional(bids) + TotalNotional(asks)
    && book.depthQty == TotalQty(bids) + TotalQty(asks)
  }

  lemma ClassifySound(bids: seq<Level>, asks: seq<Level>, th: Thresholds)
    requires forall l :: l in bids || l in asks ==> 0.0 <= l.price <= 1.0
    requires Classify(bids, asks, th).Tradable()
    ensures Sound(Classify(bids, asks, th), bids, asks, th)
  {
    BestPriceIs(bids, true, BestPrice(bids, true));
    BestPriceIs(asks, false, BestPrice(asks, false));
    var i := BestLevel(bids, true);
    var j := BestLevel(asks, false);
    assert bids[i] in bids && asks[j] in asks;
  }

  lemma {:induction false} NormalisedSound(s: Sides, th: Thresholds)
    requires Nonnegative(s.yesBids) && Nonnegative(s.yesAsks) && Nonnegative(s.noBids) && Nonnegative(s.noAsks)
    requires Normalised(s, th).Tradable()
    ensures YesSides(s).Some? && Sound(Normalised(s, th), YesSides(s).value.0, YesSides(s).value.1, th)
  {
    var u := DetectUnit(Deciding(s)).value;
    forall l | l in s.yesBids || l in s.yesAsks ensures l.price <= One(u) {
      assert l in s.yesBids + s.yesAsks;
      DetectedBound(Deciding(s), l);
    }
    SideInRange(u, s.yesBids, s.noAsks);
    SideInRange(u, s.yesAsks, s.noBids);
    var (bids, asks) := YesSides(s).value;
    ClassifySound(bids, asks, th);
  }

  /** Status OK means sound, for every document. */
  lemma {:induction false} OkIsSound(p: Payload, th: Thresholds)
    requires ParsedBook(Book(p), th).Tradable()
    ensures ParsedSides(p).Some? && YesSides(ParsedSides(p).value).Some?
    ensures var (bids, asks) := YesSides(ParsedSides(p).value).value;
            Sound(ParsedBook(Book(p), th), bids, asks, th)
  {
    ParsedNonnegative(Pick(p.yesBid, p.yesBids));
    ParsedNonnegative(Pick(p.yesAsk, p.yesAsks));
    ParsedNonnegative(Pick(p.noBid, p.noBids));
    ParsedNonnegative(Pick(p.noAsk, p.noAsks));
    NormalisedSound(ParsedSides(p).value, th);
  }

  /** Both sides exist, do not cross, and pass both gates. */
  predicate Passes(bids: seq<Level>, asks: seq<Level>, th: Thresholds) {
    && bids != [] && asks != []
    && BestPrice(bids, true) < BestPrice(asks, false)
    && TotalNotional(bids) + TotalNotional(asks) >= th.depthNotionalMin
    && BestPrice(asks, false) - BestPrice(bids, true) <= th.spreadMax
  }

  lemma ClassifyOkIff(bids: seq<Level>, asks: seq<Level>, th: Thresholds)
    ensures Classify(bids, asks, th).Tradable() <==> Passes(bids, asks, th)
  {
  }

  lemma OkIff(s: Sides, th: Thresholds)
    ensures Normalised(s, th).Tradable() <==>
            YesSides(s).Some? && Passes(YesSides(s).value.0, YesSides(s).value.1, th)
  {
    var sides := YesSides(s);
    if sides.Some? {
      ClassifyOkIff(sides.value.0, sides.value.1, th);
    }
  }

  /** Every status of two sides, and what is reported with it. */
  ghost predicate StatusIs(book: VenueBook, bids: seq<Level>, asks: seq<Level>, th: Thresholds) {
    var notional := TotalNotional(bids) + TotalNotional(asks);
    && book.depthQty == TotalQty(bids) + TotalQty(asks) && book.depthNotional == Some(notional)
    && (book.failReason == Some(NoBbo) <==> bids == [] || asks == [])
    && (if bids == [] || asks == [] then book.bestBid == None && book.bestAsk == None
        else
          var bid, ask := BestPrice(bids, true), BestPrice(asks, false);
          && (book.failReason == Some(ParseAmbiguous) <==> bid >= ask)
          && (book.failReason == Some(DepthBelowThreshold) <==> bid < ask && notional < th.depthNotionalMin)
          && (book.failReason == Some(SpreadWide) <==>
                bid < ask && notional >= th.depthNotionalMin && ask - bid > th.spreadMax)
          && (book.failReason == None <==>
                bid < ask && notional >= th.depthNotionalMin && ask - bid <= th.spreadMax)
          && (if book.failReason == None then book.bestBid == Some(bid) && book.bestAsk == Some(ask)
              else book.bestBid == None && book.bestAsk == None))
  }

  lemma ClassifyStatus(bids: seq<Level>, asks: seq<Level>, th: Thresholds)
    ensures StatusIs(Classify(bids, asks, th), bids, asks, th)
  {
  }

  /** The status of a book: by its two sides in dollars when they can be made out, and ambiguous, with
      nothing reported, when they cannot. */
  lemma {:induction false} StatusIff(s: Sides, th: Thresholds)
    ensures YesSides(s) == None ==>
              Normalised(s, th) == VenueBook(None, None, 0.0, None, Some(ParseAmbiguous))
    ensures YesSides(s).Some? ==> StatusIs(Normalised(s, th), YesSides(s).value.0, YesSides(s).value.1, th)
  {
    var sides := YesSides(s);
    if sides.Some? {
      ClassifyStatus(sides.value.0, sides.value.1, th);
    }
  }

  predicate Tighter(th: Thresholds, than: Thresholds) {
    th.depthNotionalMin >= than.depthNotionalMin && th.spreadMax <= than.spreadMax
  }

  /** What a change of thresholds may do to a verdict. */
  ghost predicate OnlyGated(b: VenueBook, loose: VenueBook) {
    && (b.Tradable() ==> loose == b)
    && (b.failReason == Some(ParseAmbiguous) <==> loose.failReason == Some(ParseAmbiguous))
    && (b.failReason == Some(NoBbo) <==> loose.failReason == Some(NoBbo))
    && b.depthQty == loose.depthQty && b.depthNotional == loose.depthNotional
  }

  lemma ClassifyOnlyGates(bids: seq<Level>, asks: seq<Level>, th: Thresholds, loose: Thresholds)
    requires Tighter(th, loose)
    ensures OnlyGated(Classify(bids, asks, th), Classify(bids, asks, loose))
  {
  }

  /** Thresholds only gate: tightening them never admits a book, never touches an ambiguous or
      one-sided verdict in either direction, and never changes the reported depth. */
  lemma {:induction false} ThresholdsOnlyGate(doc: Document, th: Thresholds, loose: Thresholds)
    requires Tighter(th, loose)
    ensures OnlyGated(ParsedBook(doc, th), ParsedBook(doc, loose))
  {
    if doc.Book? && ParsedSides(doc.payload).Some? {
      var sides := YesSides(ParsedSides(doc.payload).value);
      if sides.Some? {
        ClassifyOnlyGates(sides.value.0, sides.value.1, th, loose);
      }
    }
  }
}
