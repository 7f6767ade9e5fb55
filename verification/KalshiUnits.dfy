/** Exactly when the result for a Kalshi book does not depend on the unit it is quoted in, for every
    book that can be in cents: also when the book is ambiguous, or is taken for dollars. */
module KalshiUnits {
  import opened Wrappers
  import opened Levels
  import opened KalshiBook
  import opened KalshiLaws

  // ----- figures of a side after a change of unit, and of a derived side -----

  lemma {:induction false} PerHundredTotals(levels: seq<Level>)
    ensures TotalQty(Map(PerHundred, levels)) == TotalQty(levels)
    ensures TotalNotional(Map(PerHundred, levels)) == TotalNotional(levels) / 100.0
  {
    if levels != [] {
      var n := |levels| - 1;
      PerHundredTotals(levels[..n]);
      assert Map(PerHundred, levels)[..n] == Map(PerHundred, levels[..n]);
      PerHundredNotional(levels[n]);
    }
  }

  lemma PerHundredNotional(l: Level)
    ensures PerHundred(l).Notional() == l.Notional() / 100.0
  {
  }

  lemma {:induction false} ComplementTotals(levels: seq<Level>)
    ensures TotalQty(Map(Complement(Dollars), levels)) == TotalQty(levels)
    ensures TotalNotional(Map(Complement(Dollars), levels)) == TotalQty(levels) - TotalNotional(levels)
  {
    if levels != [] {
      var n := |levels| - 1;
      ComplementTotals(levels[..n]);
      assert Map(Complement(Dollars), levels)[..n] == Map(Complement(Dollars), levels[..n]);
      ComplementNotional(levels[n]);
    }
  }

  lemma ComplementNotional(l: Level)
    ensures Complement(Dollars)(l).qty == l.qty && Complement(Dollars)(l).Notional() == l.qty - l.Notional()
  {
    assert (1.0 - l.price) * l.qty == l.qty - l.price * l.qty;
  }

  lemma PerHundredBest(levels: seq<Level>, desc: bool)
    requires levels != []
    ensures BestPrice(Map(PerHundred, levels), desc) == BestPrice(levels, desc) / 100.0
  {
    var scaled, best := Map(PerHundred, levels), BestPrice(levels, desc);
    var i := BestLevel(levels, desc);
    assert scaled[i].price == best / 100.0;
    BestPriceIs(scaled, desc, best / 100.0);
  }

  /** The best price of a derived side complements the worst-for-it price of the other outcome. */
  lemma ComplementBest(u: Unit, levels: seq<Level>, desc: bool)
    requires levels != []
    ensures BestPrice(Map(Complement(u), levels), desc) == One(u) - BestPrice(levels, !desc)
  {
    var turned, best := Map(Complement(u), levels), BestPrice(levels, !desc);
    var i := BestLevel(levels, !desc);
    assert turned[i].price == One(u) - best;
    BestPriceIs(turned, desc, One(u) - best);
  }

  lemma BestIn(levels: seq<Level>, desc: bool, max: real)
    requires levels != [] && Nonnegative(levels) && forall l :: l in levels ==> l.price <= max
    ensures 0.0 <= BestPrice(levels, desc) <= max
  {
    var i := BestLevel(levels, desc);
    assert levels[i] in levels;
  }

  // ----- the verdict from five figures -----

  datatype Figures = Figures(oneSided: bool, bid: real, ask: real, qty: real, notional: real)

  function FiguresOf(bids: seq<Level>, asks: seq<Level>): Figures {
    var qty, notional := TotalQty(bids) + TotalQty(asks), TotalNotional(bids) + TotalNotional(asks);
    if bids == [] || asks == [] then Figures(true, 0.0, 0.0, qty, notional)
    else Figures(false, BestPrice(bids, true), BestPrice(asks, false), qty, notional)
  }

  function Verdict(f: Figures, th: Thresholds): VenueBook {
    if f.oneSided then VenueBook(None, None, f.qty, Some(f.notional), Some(NoBbo))
    else if f.bid >= f.ask then VenueBook(None, None, f.qty, Some(f.notional), Some(ParseAmbiguous))
    else if f.notional < th.depthNotionalMin then
      VenueBook(None, None, f.qty, Some(f.notional), Some(DepthBelowThreshold))
    else if f.ask - f.bid > th.spreadMax then VenueBook(None, None, f.qty, Some(f.notional), Some(SpreadWide))
    else VenueBook(Some(f.bid), Some(f.ask), f.qty, Some(f.notional), None)
  }

  lemma ClassifyByFigures(bids: seq<Level>, asks: seq<Level>, th: Thresholds)
    ensures Classify(bids, asks, th) == Verdict(FiguresOf(bids, asks), th)
  {
  }

  /** Both sides quoted: everything is scaled. */
  lemma ScaledVerdict(f: Figures, th: Thresholds)
    requires 0.0 <= f.bid && 0.0 <= f.ask
    ensures Verdict(Figures(f.oneSided, f.bid / 100.0, f.ask / 100.0, f.qty, f.notional / 100.0), th) == Verdict(f, th)
            <==> f.notional == 0.0
                 && (f.oneSided || f.bid >= f.ask || 0.0 < th.depthNotionalMin || f.ask - f.bid > 100.0 * th.spreadMax)
  {
  }

  /** Asks derived from NO bids at best `no`; `qty` NO contracts of notional `nn`. */
  lemma DerivedAskVerdict(yes: real, no: real, total: real, ny: real, qty: real, nn: real, th: Thresholds)
    requires 0.0 <= yes <= 1.0 && 0.0 <= no <= 1.0
    ensures Verdict(Figures(false, yes / 100.0, 1.0 - no / 100.0, total, ny / 100.0 + (qty - nn / 100.0)), th)
            == Verdict(Figures(false, yes, 1.0 - no, total, ny + (qty - nn)), th)
            <==> ny == nn && yes + no < 1.0
                 && (qty < th.depthNotionalMin || 1.0 - (yes + no) > th.spreadMax || (yes == 0.0 && no == 0.0))
  {
  }

  /** Bids derived from NO asks at best `no`. */
  lemma DerivedBidVerdict(no: real, yes: real, total: real, ny: real, qty: real, nn: real, th: Thresholds)
    requires 0.0 <= yes <= 1.0 && 0.0 <= no <= 1.0
    ensures Verdict(Figures(false, 1.0 - no / 100.0, yes / 100.0, total, (qty - nn / 100.0) + ny / 100.0), th)
            == Verdict(Figures(false, 1.0 - no, yes, total, (qty - nn) + ny), th)
            <==> ny == nn && yes + no <= 1.0
  {
  }

  /** Both sides derived. */
  lemma DerivedBothVerdict(ask: real, bid: real, total: real, qa: real, na: real, qb: real, nb: real, th: Thresholds)
    requires 0.0 <= ask <= 1.0 && 0.0 <= bid <= 1.0
    ensures Verdict(Figures(false, 1.0 - ask / 100.0, 1.0 - bid / 100.0, total, (qa - na / 100.0) + (qb - nb / 100.0)), th)
            == Verdict(Figures(false, 1.0 - ask, 1.0 - bid, total, (qa - na) + (qb - nb)), th)
            <==> na + nb == 0.0
                 && (bid >= ask || qa + qb < th.depthNotionalMin || ask - bid > 100.0 * th.spreadMax)
  {
  }

  // ----- books that are taken for dollars in either unit -----

  predicate Low(levels: seq<Level>) {
    forall l :: l in levels ==> l.price <= 1.0
  }

  /** The two sides of a book read as dollars. */
  lemma ReadAsDollars(s: Sides, th: Thresholds)
    requires DetectUnit(Deciding(s)) == Some(Dollars)
    ensures var bids, asks := Derived(Dollars, s.yesBids, s.noAsks), Derived(Dollars, s.yesAsks, s.noBids);
            if bids.None? || asks.None? then Normalised(s, th) == AMBIGUOUS
            else Normalised(s, th) == Verdict(FiguresOf(bids.value, asks.value), th)
  {
    var bids, asks := Derived(Dollars, s.yesBids, s.noAsks), Derived(Dollars, s.yesAsks, s.noBids);
    if bids.Some? && asks.Some? {
      DollarsStay(bids.value);
      DollarsStay(asks.value);
      ClassifyByFigures(bids.value, asks.value, th);
    }
  }

  lemma LowInDollars(s: Sides)
    requires Deciding(s) != [] && Low(Deciding(s))
    ensures DetectUnit(Deciding(s)) == Some(Dollars) && DetectUnit(Deciding(InDollars(s))) == Some(Dollars)
  {
    CentsIff(Deciding(s));
    MapConcat(PerHundred, s.yesBids, s.yesAsks);
    MapConcat(PerHundred, s.noBids, s.noAsks);
    assert Deciding(InDollars(s)) == Map(PerHundred, Deciding(s));
    DollarsOfCents(Deciding(s));
  }

  predicate AsksDerived(s: Sides) {
    s.yesAsks == [] && s.noBids != []
  }

  predicate BidsDerived(s: Sides) {
    s.yesBids == [] && s.noAsks != []
  }

  /** For a book that is taken for dollars either way, when the result is the same. */
  predicate LowUnitIrrelevant(s: Sides, th: Thresholds) {
    if AsksDerived(s) && BidsDerived(s) then BothIrrelevant(s, th)
    else if AsksDerived(s) && s.yesBids != [] then AsksIrrelevant(s, th)
    else if BidsDerived(s) && s.yesAsks != [] then BidsIrrelevant(s)
    else if AsksDerived(s) then TotalNotional(s.noBids) == 0.0
    else if BidsDerived(s) then TotalNotional(s.noAsks) == 0.0
    else QuotedIrrelevant(s, th)
  }

  predicate QuotedIrrelevant(s: Sides, th: Thresholds) {
    && TotalNotional(s.yesBids) + TotalNotional(s.yesAsks) == 0.0
    && (|| s.yesBids == [] || s.yesAsks == []
        || BestPrice(s.yesBids, true) >= BestPrice(s.yesAsks, false)
        || 0.0 < th.depthNotionalMin
        || BestPrice(s.yesAsks, false) - BestPrice(s.yesBids, true) > 100.0 * th.spreadMax)
  }

  predicate AsksIrrelevant(s: Sides, th: Thresholds)
    requires s.yesBids != [] && s.noBids != []
  {
    var yes, no := BestPrice(s.yesBids, true), BestPrice(s.noBids, true);
    || no > 100.0
    || (&& no <= 1.0 && TotalNotional(s.yesBids) == TotalNotional(s.noBids) && yes + no < 1.0
        && (TotalQty(s.noBids) < th.depthNotionalMin || 1.0 - (yes + no) > th.spreadMax || (yes == 0.0 && no == 0.0)))
  }

  predicate BidsIrrelevant(s: Sides)
    requires s.yesAsks != [] && s.noAsks != []
  {
    || BestPrice(s.noAsks, true) > 100.0
    || (&& BestPrice(s.noAsks, true) <= 1.0 && TotalNotional(s.yesAsks) == TotalNotional(s.noAsks)
        && BestPrice(s.yesAsks, false) + BestPrice(s.noAsks, false) <= 1.0)
  }

  predicate BothIrrelevant(s: Sides, th: Thresholds)
    requires s.noBids != [] && s.noAsks != []
  {
    var ask, bid := BestPrice(s.noAsks, false), BestPrice(s.noBids, true);
    && TotalNotional(s.noAsks) + TotalNotional(s.noBids) == 0.0
    && (bid >= ask || TotalQty(s.noAsks) + TotalQty(s.noBids) < th.depthNotionalMin || ask - bid > 100.0 * th.spreadMax)
  }

  /** A price above `max` is quoted exactly when the dearest is. */
  lemma {:induction false} DearestAbove(levels: seq<Level>, max: real)
    requires levels != []
    ensures AnyAbove(levels, max) <==> BestPrice(levels, true) > max
  {
    if |levels| > 1 {
      DearestAbove(levels[..|levels| - 1], max);
    }
  }

  lemma VerdictReportsDepth(f: Figures, th: Thresholds)
    ensures Verdict(f, th).depthNotional == Some(f.notional) && Verdict(f, th) != AMBIGUOUS
  {
  }

  lemma LowIff(levels: seq<Level>)
    requires levels != []
    ensures Low(levels) <==> BestPrice(levels, true) <= 1.0
  {
    DearestAbove(levels, 1.0);
    AnyIs(levels, 1.0);
  }

  /** When a side derived in dollars exists. */
  lemma DerivedExists(levels: seq<Level>)
    requires levels != []
    ensures Derived(Dollars, [], levels)
            == if BestPrice(levels, true) > 1.0 then None else Some(Map(Complement(Dollars), levels))
  {
    DearestAbove(levels, 1.0);
  }

  lemma ReadFigures(s: Sides, th: Thresholds, bids: seq<Level>, asks: seq<Level>, f: Figures)
    requires DetectUnit(Deciding(s)) == Some(Dollars)
    requires Derived(Dollars, s.yesBids, s.noAsks) == Some(bids) && Derived(Dollars, s.yesAsks, s.noBids) == Some(asks)
    requires FiguresOf(bids, asks) == f
    ensures Normalised(s, th) == Verdict(f, th)
  {
    ReadAsDollars(s, th);
  }

  lemma ReadNothing(s: Sides, th: Thresholds)
    requires DetectUnit(Deciding(s)) == Some(Dollars)
    requires Derived(Dollars, s.yesBids, s.noAsks) == None || Derived(Dollars, s.yesAsks, s.noBids) == None
    ensures Normalised(s, th) == AMBIGUOUS
  {
    ReadAsDollars(s, th);
  }

  /** The figures of a derived side. */
  lemma DerivedFigures(levels: seq<Level>, desc: bool)
    requires levels != []
    ensures var side := Map(Complement(Dollars), levels);
            && side != [] && TotalQty(side) == TotalQty(levels)
            && TotalNotional(side) == TotalQty(levels) - TotalNotional(levels)
            && BestPrice(side, desc) == 1.0 - BestPrice(levels, !desc)
  {
    ComplementTotals(levels);
    ComplementBest(Dollars, levels, desc);
  }

  /** The figures of a side divided by 100. */
  lemma HundredthFigures(levels: seq<Level>, desc: bool)
    requires levels != []
    ensures var scaled := Map(PerHundred, levels);
            && scaled != [] && TotalQty(scaled) == TotalQty(levels)
            && TotalNotional(scaled) == TotalNotional(levels) / 100.0
            && BestPrice(scaled, desc) == BestPrice(levels, desc) / 100.0
  {
    PerHundredTotals(levels);
    PerHundredBest(levels, desc);
  }

  // Both YES sides quoted, or one of them with nothing to derive the other from.

  lemma ScaledFigures(bids: seq<Level>, asks: seq<Level>)
    ensures var f := FiguresOf(bids, asks);
            FiguresOf(Map(PerHundred, bids), Map(PerHundred, asks))
            == Figures(f.oneSided, f.bid / 100.0, f.ask / 100.0, f.qty, f.notional / 100.0)
  {
    PerHundredTotals(bids);
    PerHundredTotals(asks);
    if bids != [] && asks != [] {
      PerHundredBest(bids, true);
      PerHundredBest(asks, false);
    }
  }

  lemma ReadQuoted(s: Sides, th: Thresholds)
    requires DetectUnit(Deciding(s)) == Some(Dollars) && !AsksDerived(s) && !BidsDerived(s)
    ensures Normalised(s, th) == Verdict(FiguresOf(s.yesBids, s.yesAsks), th)
  {
    ReadAsDollars(s, th);
  }

  lemma QuotedVerdict(s: Sides, th: Thresholds)
    requires NonnegativeSides(s)
    ensures Verdict(FiguresOf(Map(PerHundred, s.yesBids), Map(PerHundred, s.yesAsks)), th)
            == Verdict(FiguresOf(s.yesBids, s.yesAsks), th)
            <==> QuotedIrrelevant(s, th)
  {
    ScaledFigures(s.yesBids, s.yesAsks);
    if s.yesBids != [] && s.yesAsks != [] {
      BestNonnegative(s.yesBids, true);
      BestNonnegative(s.yesAsks, false);
    }
    ScaledVerdict(FiguresOf(s.yesBids, s.yesAsks), th);
  }

  lemma BestNonnegative(levels: seq<Level>, desc: bool)
    requires levels != [] && Nonnegative(levels)
    ensures 0.0 <= BestPrice(levels, desc)
  {
    var i := BestLevel(levels, desc);
    assert levels[i] in levels;
  }

  lemma QuotedBooks(s: Sides, th: Thresholds)
    requires NonnegativeSides(s) && Deciding(s) != [] && Low(Deciding(s)) && !AsksDerived(s) && !BidsDerived(s)
    ensures Normalised(InDollars(s), th) == Normalised(s, th) <==> QuotedIrrelevant(s, th)
  {
    LowInDollars(s);
    ReadQuoted(s, th);
    ReadQuoted(InDollars(s), th);
    QuotedVerdict(s, th);
  }

  // YES bids quoted, YES asks derived.

  function AskFigures(yes: seq<Level>, no: seq<Level>): Figures
    requires yes != [] && no != []
  {
    Figures(false, BestPrice(yes, true), 1.0 - BestPrice(no, true), TotalQty(yes) + TotalQty(no),
            TotalNotional(yes) + (TotalQty(no) - TotalNotional(no)))
  }

  lemma AskFiguresAre(yes: seq<Level>, no: seq<Level>)
    requires yes != [] && no != []
    ensures FiguresOf(yes, Map(Complement(Dollars), no)) == AskFigures(yes, no)
  {
    DerivedFigures(no, false);
  }

  lemma ReadAsks(s: Sides, th: Thresholds)
    requires DetectUnit(Deciding(s)) == Some(Dollars) && s.yesBids != [] && AsksDerived(s)
    ensures Normalised(s, th)
            == if BestPrice(s.noBids, true) > 1.0 then AMBIGUOUS else Verdict(AskFigures(s.yesBids, s.noBids), th)
  {
    DerivedExists(s.noBids);
    if BestPrice(s.noBids, true) > 1.0 {
      ReadNothing(s, th);
    } else {
      AskFiguresAre(s.yesBids, s.noBids);
      ReadFigures(s, th, s.yesBids, Map(Complement(Dollars), s.noBids), AskFigures(s.yesBids, s.noBids));
    }
  }

  lemma AsksVerdict(s: Sides, th: Thresholds)
    requires NonnegativeSides(s) && s.yesBids != [] && AsksDerived(s)
    requires Low(s.yesBids) && Low(s.noBids)
    ensures Verdict(AskFigures(Map(PerHundred, s.yesBids), Map(PerHundred, s.noBids)), th)
            == Verdict(AskFigures(s.yesBids, s.noBids), th)
            <==> AsksIrrelevant(s, th)
  {
    HundredthFigures(s.yesBids, true);
    HundredthFigures(s.noBids, true);
    BestIn(s.yesBids, true, 1.0);
    BestIn(s.noBids, true, 1.0);
    DerivedAskVerdict(BestPrice(s.yesBids, true), BestPrice(s.noBids, true), TotalQty(s.yesBids) + TotalQty(s.noBids),
                      TotalNotional(s.yesBids), TotalQty(s.noBids), TotalNotional(s.noBids), th);
  }

  lemma AsksDerivedBooks(s: Sides, th: Thresholds)
    requires NonnegativeSides(s) && s.yesBids != [] && AsksDerived(s) && Low(Deciding(s))
    ensures Normalised(InDollars(s), th) == Normalised(s, th) <==> AsksIrrelevant(s, th)
  {
    assert s.yesBids + s.yesAsks == s.yesBids;
    LowInDollars(s);
    ReadAsks(s, th);
    ReadAsks(InDollars(s), th);
    PerHundredBest(s.noBids, true);
    LowIff(s.noBids);
    VerdictReportsDepth(AskFigures(Map(PerHundred, s.yesBids), Map(PerHundred, s.noBids)), th);
    if Low(s.noBids) {
      AsksVerdict(s, th);
    }
  }

  // YES asks quoted, YES bids derived.

  function BidFigures(no: seq<Level>, yes: seq<Level>): Figures
    requires yes != [] && no != []
  {
    Figures(false, 1.0 - BestPrice(no, false), BestPrice(yes, false), TotalQty(no) + TotalQty(yes),
            (TotalQty(no) - TotalNotional(no)) + TotalNotional(yes))
  }

  lemma BidFiguresAre(no: seq<Level>, yes: seq<Level>)
    requires yes != [] && no != []
    ensures FiguresOf(Map(Complement(Dollars), no), yes) == BidFigures(no, yes)
  {
    DerivedFigures(no, true);
  }

  lemma ReadBids(s: Sides, th: Thresholds)
    requires DetectUnit(Deciding(s)) == Some(Dollars) && s.yesAsks != [] && BidsDerived(s)
    ensures Normalised(s, th)
            == if BestPrice(s.noAsks, true) > 1.0 then AMBIGUOUS else Verdict(BidFigures(s.noAsks, s.yesAsks), th)
  {
    DerivedExists(s.noAsks);
    if BestPrice(s.noAsks, true) > 1.0 {
      ReadNothing(s, th);
    } else {
      BidFiguresAre(s.noAsks, s.yesAsks);
      ReadFigures(s, th, Map(Complement(Dollars), s.noAsks), s.yesAsks, BidFigures(s.noAsks, s.yesAsks));
    }
  }

  lemma BidsVerdict(s: Sides, th: Thresholds)
    requires NonnegativeSides(s) && s.yesAsks != [] && BidsDerived(s)
    requires Low(s.yesAsks) && Low(s.noAsks)
    ensures Verdict(BidFigures(Map(PerHundred, s.noAsks), Map(PerHundred, s.yesAsks)), th)
            == Verdict(BidFigures(s.noAsks, s.yesAsks), th)
            <==> BidsIrrelevant(s)
  {
    HundredthFigures(s.yesAsks, false);
    HundredthFigures(s.noAsks, false);
    BestIn(s.yesAsks, false, 1.0);
    BestIn(s.noAsks, false, 1.0);
    LowIff(s.noAsks);
    DerivedBidVerdict(BestPrice(s.noAsks, false), BestPrice(s.yesAsks, false), TotalQty(s.noAsks) + TotalQty(s.yesAsks),
                      TotalNotional(s.yesAsks), TotalQty(s.noAsks), TotalNotional(s.noAsks), th);
  }

  lemma BidsDerivedBooks(s: Sides, th: Thresholds)
    requires NonnegativeSides(s) && s.yesAsks != [] && BidsDerived(s) && Low(Deciding(s))
    ensures Normalised(InDollars(s), th) == Normalised(s, th) <==> BidsIrrelevant(s)
  {
    assert s.yesBids + s.yesAsks == s.yesAsks;
    LowInDollars(s);
    ReadBids(s, th);
    ReadBids(InDollars(s), th);
    PerHundredBest(s.noAsks, true);
    LowIff(s.noAsks);
    VerdictReportsDepth(BidFigures(Map(PerHundred, s.noAsks), Map(PerHundred, s.yesAsks)), th);
    if Low(s.noAsks) {
      BidsVerdict(s, th);
    }
  }

  // Both YES sides derived.

  function BothFigures(asks: seq<Level>, bids: seq<Level>): Figures
    requires asks != [] && bids != []
  {
    Figures(false, 1.0 - BestPrice(asks, false), 1.0 - BestPrice(bids, true), TotalQty(asks) + TotalQty(bids),
            (TotalQty(asks) - TotalNotional(asks)) + (TotalQty(bids) - TotalNotional(bids)))
  }

  lemma NoSideLow(s: Sides)
    requires s.yesBids == [] && s.yesAsks == [] && Low(Deciding(s))
    ensures Low(s.noBids) && Low(s.noAsks)
  {
    assert s.yesBids + s.yesAsks == [];
    forall l | l in s.noBids || l in s.noAsks ensures l.price <= 1.0 {
      assert l in s.noBids + s.noAsks;
    }
  }

  lemma BothFiguresAre(asks: seq<Level>, bids: seq<Level>)
    requires asks != [] && bids != []
    ensures FiguresOf(Map(Complement(Dollars), asks), Map(Complement(Dollars), bids)) == BothFigures(asks, bids)
  {
    DerivedFigures(asks, true);
    DerivedFigures(bids, false);
  }

  lemma ReadBoth(s: Sides, th: Thresholds)
    requires DetectUnit(Deciding(s)) == Some(Dollars) && AsksDerived(s) && BidsDerived(s)
    requires BestPrice(s.noBids, true) <= 1.0 && BestPrice(s.noAsks, true) <= 1.0
    ensures Normalised(s, th) == Verdict(BothFigures(s.noAsks, s.noBids), th)
  {
    DerivedExists(s.noAsks);
    DerivedExists(s.noBids);
    BothFiguresAre(s.noAsks, s.noBids);
    ReadFigures(s, th, Map(Complement(Dollars), s.noAsks), Map(Complement(Dollars), s.noBids),
                BothFigures(s.noAsks, s.noBids));
  }

  lemma BothVerdict(s: Sides, th: Thresholds)
    requires NonnegativeSides(s) && AsksDerived(s) && BidsDerived(s)
    requires Low(s.noBids) && Low(s.noAsks)
    ensures Verdict(BothFigures(Map(PerHundred, s.noAsks), Map(PerHundred, s.noBids)), th)
            == Verdict(BothFigures(s.noAsks, s.noBids), th)
            <==> BothIrrelevant(s, th)
  {
    HundredthFigures(s.noAsks, false);
    HundredthFigures(s.noBids, true);
    BestIn(s.noAsks, false, 1.0);
    BestIn(s.noBids, true, 1.0);
    DerivedBothVerdict(BestPrice(s.noAsks, false), BestPrice(s.noBids, true), TotalQty(s.noAsks) + TotalQty(s.noBids),
                       TotalQty(s.noAsks), TotalNotional(s.noAsks), TotalQty(s.noBids), TotalNotional(s.noBids), th);
  }

  lemma BothDerivedBooks(s: Sides, th: Thresholds)
    requires NonnegativeSides(s) && AsksDerived(s) && BidsDerived(s) && Low(Deciding(s))
    ensures Normalised(InDollars(s), th) == Normalised(s, th) <==> BothIrrelevant(s, th)
  {
    NoSideLow(s);
    NoSidesCheap(s.noBids);
    NoSidesCheap(s.noAsks);
    LowInDollars(s);
    ReadBoth(s, th);
    ReadBoth(InDollars(s), th);
    BothVerdict(s, th);
  }

  lemma NoSidesCheap(levels: seq<Level>)
    requires levels != [] && Low(levels)
    ensures BestPrice(levels, true) <= 1.0 && BestPrice(Map(PerHundred, levels), true) <= 1.0
  {
    LowIff(levels);
    PerHundredBest(levels, true);
  }

  // One YES side derived, and nothing on the other.

  lemma OneSidedVerdict(qty: real, notional: real, th: Thresholds)
    ensures Verdict(Figures(true, 0.0, 0.0, qty, qty - notional / 100.0), th)
            == Verdict(Figures(true, 0.0, 0.0, qty, qty - notional), th)
            <==> notional == 0.0
  {
  }

  lemma OneFigures(levels: seq<Level>, qty: real, notional: real)
    requires levels != [] && qty == TotalQty(levels) && notional == TotalNotional(levels)
    ensures var side := Map(Complement(Dollars), levels);
            FiguresOf(side, []) == FiguresOf([], side) == Figures(true, 0.0, 0.0, qty, qty - notional)
  {
    ComplementTotals(levels);
  }

  /** A book in dollars whose only levels are `levels`, on the NO side. */
  ghost predicate OnlyNo(s: Sides, levels: seq<Level>) {
    && DetectUnit(Deciding(s)) == Some(Dollars) && s.yesBids == [] && s.yesAsks == [] && levels != []
    && ((s.noBids == levels && s.noAsks == []) || (s.noAsks == levels && s.noBids == []))
    && BestPrice(levels, true) <= 1.0
  }

  lemma ReadOne(s: Sides, th: Thresholds, levels: seq<Level>, qty: real, notional: real)
    requires OnlyNo(s, levels) && qty == TotalQty(levels) && notional == TotalNotional(levels)
    ensures Normalised(s, th) == Verdict(Figures(true, 0.0, 0.0, qty, qty - notional), th)
  {
    var side := Map(Complement(Dollars), levels);
    DerivedExists(levels);
    OneFigures(levels, qty, notional);
    if s.noBids == levels {
      ReadFigures(s, th, [], side, Figures(true, 0.0, 0.0, qty, qty - notional));
    } else {
      ReadFigures(s, th, side, [], Figures(true, 0.0, 0.0, qty, qty - notional));
    }
  }

  lemma CompareOne(s: Sides, d: Sides, th: Thresholds, levels: seq<Level>, scaled: seq<Level>, qty: real, notional: real)
    requires OnlyNo(s, levels) && qty == TotalQty(levels) && notional == TotalNotional(levels)
    requires OnlyNo(d, scaled) && qty == TotalQty(scaled) && notional / 100.0 == TotalNotional(scaled)
    ensures Normalised(d, th) == Normalised(s, th) <==> notional == 0.0
  {
    ReadOne(s, th, levels, qty, notional);
    ReadOne(d, th, scaled, qty, notional / 100.0);
    OneSidedVerdict(qty, notional, th);
  }

  lemma OneDerivedBooks(s: Sides, th: Thresholds, levels: seq<Level>)
    requires s.yesBids == [] && s.yesAsks == [] && levels != [] && Low(Deciding(s))
    requires (s.noBids == levels && s.noAsks == []) || (s.noAsks == levels && s.noBids == [])
    ensures Normalised(InDollars(s), th) == Normalised(s, th) <==> TotalNotional(levels) == 0.0
  {
    OnlyNoInDollars(s, levels);
    PerHundredTotals(levels);
    CompareOne(s, InDollars(s), th, levels, Map(PerHundred, levels), TotalQty(levels), TotalNotional(levels));
  }

  lemma OnlyNoInDollars(s: Sides, levels: seq<Level>)
    requires s.yesBids == [] && s.yesAsks == [] && levels != [] && Low(Deciding(s))
    requires (s.noBids == levels && s.noAsks == []) || (s.noAsks == levels && s.noBids == [])
    ensures OnlyNo(s, levels) && OnlyNo(InDollars(s), Map(PerHundred, levels))
  {
    NoSideLow(s);
    NoSidesCheap(levels);
    LowInDollars(s);
  }

  lemma LowBooks(s: Sides, th: Thresholds)
    requires NonnegativeSides(s) && Deciding(s) != [] && Low(Deciding(s))
    ensures Normalised(InDollars(s), th) == Normalised(s, th) <==> LowUnitIrrelevant(s, th)
  {
    if AsksDerived(s) && BidsDerived(s) {
      BothDerivedBooks(s, th);
    } else if AsksDerived(s) && s.yesBids != [] {
      AsksDerivedBooks(s, th);
    } else if BidsDerived(s) && s.yesAsks != [] {
      BidsDerivedBooks(s, th);
    } else if AsksDerived(s) {
      OneDerivedBooks(s, th, s.noBids);
    } else if BidsDerived(s) {
      OneDerivedBooks(s, th, s.noAsks);
    } else {
      QuotedBooks(s, th);
    }
  }

  // ----- every book that can be in cents -----

  /** When the result is the same in either unit, as conditions on the quoted levels. */
  predicate UnitIrrelevant(s: Sides, th: Thresholds) {
    if Deciding(s) == [] then true
    else if Low(Deciding(s)) then LowUnitIrrelevant(s, th)
    else (forall l :: l in Deciding(s) ==> l.price > 1.0) || OutOfRange(s)
  }

  /** Exactly when the unit does not matter, for every book whose deciding prices are at most 100. */
  lemma {:induction false} UnitInvarianceIff(s: Sides, th: Thresholds)
    requires NonnegativeSides(s) && forall l :: l in Deciding(s) ==> l.price <= 100.0
    ensures Normalised(InDollars(s), th) == Normalised(s, th) <==> UnitIrrelevant(s, th)
  {
    if Deciding(s) == [] {
      MapConcat(PerHundred, s.yesBids, s.yesAsks);
      MapConcat(PerHundred, s.noBids, s.noAsks);
      assert Deciding(InDollars(s)) == Map(PerHundred, Deciding(s));
    } else if Low(Deciding(s)) {
      LowBooks(s, th);
    } else {
      VisiblyCentsIff(s, th);
    }
  }

  /** For a two-sided book in YES prices and a positive depth threshold: taken for dollars, a book in
      cents changes its result unless it is worth nothing. */
  lemma {:induction false} TakenForDollars(s: Sides, th: Thresholds)
    requires NonnegativeSides(s) && s.yesBids != [] && s.yesAsks != [] && Low(s.yesBids + s.yesAsks)
    requires th.depthNotionalMin > 0.0
    ensures Normalised(InDollars(s), th) == Normalised(s, th)
            <==> TotalNotional(s.yesBids) + TotalNotional(s.yesAsks) == 0.0
  {
    QuotedBooks(s, th);
  }
}
