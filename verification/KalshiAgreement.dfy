/** Exactly when the engine and Python see the same market in one Kalshi payload, whatever its
    prices. */
module KalshiAgreement {
  import opened Wrappers
  import opened Levels
  import opened KalshiBook
  import opened KalshiLaws
  import opened KalshiRust
  import opened KalshiUnits

  predicate Quotes(yesBids: seq<Level>, noBids: seq<Level>, above: real) {
    exists l :: l in yesBids + noBids && l.price > above
  }

  /** The condition, on the quoted levels and the thresholds: no price above 100; where some price is
      above 1, all YES bids are, or the best bids of the two outcomes cross in cents as well; where
      none is, Python reads dollars, and the two differ as soon as it finds the book crossed, or OK
      with a price other than 0. */
  predicate SameMarket(yesBids: seq<Level>, noBids: seq<Level>, th: Thresholds)
    requires yesBids != [] && noBids != []
  {
    var yes, no := BestPrice(yesBids, true), BestPrice(noBids, true);
    if Quotes(yesBids, noBids, 100.0) then false
    else if Quotes(yesBids, noBids, 1.0) then (forall l :: l in yesBids ==> l.price > 1.0) || yes + no >= 100.0
    else
      && yes + no < 1.0
      && (|| TotalNotional(yesBids) + (TotalQty(noBids) - TotalNotional(noBids)) < th.depthNotionalMin
          || 1.0 - (yes + no) > th.spreadMax
          || (yes == 0.0 && no == 0.0))
  }

  lemma QuotesIff(yesBids: seq<Level>, noBids: seq<Level>, above: real)
    requires yesBids != [] && noBids != []
    ensures Quotes(yesBids, noBids, above) <==> BestPrice(yesBids, true) > above || BestPrice(noBids, true) > above
  {
    AnyIs(yesBids, above);
    AnyIs(noBids, above);
    DearestAbove(yesBids, above);
    DearestAbove(noBids, above);
    assert forall l :: l in yesBids + noBids <==> l in yesBids || l in noBids;
  }

  // ----- the engine -----

  lemma RustSees(yesBids: seq<Level>, noBids: seq<Level>)
    requires yesBids != [] && noBids != []
    ensures var r := RustNormalised(yesBids, noBids);
            if Quotes(yesBids, noBids, 100.0) then r == Err(OutOfBounds)
            else if BestPrice(yesBids, true) + BestPrice(noBids, true) >= 100.0 then r == Err(Crossed)
            else r == Ok(RustBook(SortByPrice(yesBids, true), SortByPrice(Map(Complement(Cents), noBids), false)))
  {
    ComplementBest(Cents, noBids, false);
  }

  lemma RustHeads(yesBids: seq<Level>, noBids: seq<Level>)
    requires yesBids != [] && noBids != []
    ensures SortByPrice(yesBids, true)[0].price == BestPrice(yesBids, true)
    ensures SortByPrice(Map(Complement(Cents), noBids), false)[0].price == 100.0 - BestPrice(noBids, true)
  {
    SortedHead(yesBids, true);
    SortedHead(Map(Complement(Cents), noBids), false);
    ComplementBest(Cents, noBids, false);
  }

  // ----- Python -----

  function BidSides(yesBids: seq<Level>, noBids: seq<Level>): Sides {
    Sides(yesBids, [], noBids, [])
  }

  /** With a price above 1 and a YES bid that is not, or with a price above 100, Python gives up. */
  lemma PythonGivesUp(yesBids: seq<Level>, noBids: seq<Level>, th: Thresholds)
    requires yesBids != [] && noBids != []
    requires Quotes(yesBids, noBids, 100.0)
             || (Quotes(yesBids, noBids, 1.0) && exists l :: l in yesBids && l.price <= 1.0)
    ensures Normalised(BidSides(yesBids, noBids), th) == AMBIGUOUS
  {
    var s := BidSides(yesBids, noBids);
    QuotesIff(yesBids, noBids, 100.0);
    QuotesIff(yesBids, noBids, 1.0);
    DearestAbove(yesBids, 100.0);
    DearestAbove(yesBids, 1.0);
    AnyIs(yesBids, 1.0);
    assert Deciding(s) == yesBids by {
      assert yesBids + [] == yesBids;
    }
    UnitOrNone(yesBids);
    var unit := DetectUnit(yesBids);
    if unit.Some? {
      DearestAbove(noBids, One(unit.value));
      NoAsks(s, unit.value);
    }
  }

  lemma UnitOrNone(levels: seq<Level>)
    requires levels != []
    ensures BestPrice(levels, true) > 100.0 ==> DetectUnit(levels) == None
    ensures BestPrice(levels, true) > 1.0 && AnyAtMost(levels, 1.0) ==> DetectUnit(levels) == None
    ensures DetectUnit(levels) == Some(Dollars) ==> BestPrice(levels, true) <= 1.0
    ensures DetectUnit(levels) == Some(Cents) ==> !AnyAtMost(levels, 1.0)
  {
    DearestAbove(levels, 100.0);
    DearestAbove(levels, 1.0);
  }

  lemma NoAsks(s: Sides, u: Unit)
    requires s.yesAsks == [] && s.noBids != [] && AnyAbove(s.noBids, One(u))
    ensures SidesIn(u, s) == None
  {
  }

  /** With no price above 1, Python reads dollars. */
  lemma PythonReadsDollars(yesBids: seq<Level>, noBids: seq<Level>, th: Thresholds)
    requires yesBids != [] && noBids != [] && !Quotes(yesBids, noBids, 1.0)
    ensures Normalised(BidSides(yesBids, noBids), th) == Verdict(AskFigures(yesBids, noBids), th)
  {
    var s := BidSides(yesBids, noBids);
    QuotesIff(yesBids, noBids, 1.0);
    DearestAbove(yesBids, 1.0);
    AnyIs(yesBids, 1.0);
    assert Deciding(s) == yesBids by {
      assert yesBids + [] == yesBids;
    }
    CentsIff(yesBids);
    ReadAsks(s, th);
  }

  // ----- agreement -----

  lemma AmbiguousAgrees(rust: Result<RustBook, RustError>)
    ensures Agree(rust, AMBIGUOUS) <==> rust == Err(Crossed)
  {
  }

  /** Dollar figures in Python against cents in the engine. */
  lemma DollarVerdictAgrees(bids: seq<Level>, asks: seq<Level>, f: Figures, yes: real, no: real, th: Thresholds)
    requires bids != [] && asks != [] && bids[0].price == yes && asks[0].price == 100.0 - no
    requires !f.oneSided && f.bid == yes && f.ask == 1.0 - no && 0.0 <= yes <= 1.0 && 0.0 <= no <= 1.0
    ensures Agree(Ok(RustBook(bids, asks)), Verdict(f, th))
            <==> yes + no < 1.0
                 && (f.notional < th.depthNotionalMin || 1.0 - (yes + no) > th.spreadMax || (yes == 0.0 && no == 0.0))
  {
  }

  lemma LowAgreeIff(yesBids: seq<Level>, noBids: seq<Level>, th: Thresholds)
    requires Nonnegative(yesBids) && Nonnegative(noBids) && yesBids != [] && noBids != []
    requires !Quotes(yesBids, noBids, 1.0)
    ensures Agree(RustNormalised(yesBids, noBids), Normalised(BidSides(yesBids, noBids), th))
            <==> SameMarket(yesBids, noBids, th)
  {
    QuotesIff(yesBids, noBids, 100.0);
    QuotesIff(yesBids, noBids, 1.0);
    PythonReadsDollars(yesBids, noBids, th);
    RustSees(yesBids, noBids);
    RustHeads(yesBids, noBids);
    BestNonnegative(yesBids, true);
    BestNonnegative(noBids, true);
    DollarVerdictAgrees(SortByPrice(yesBids, true), SortByPrice(Map(Complement(Cents), noBids), false),
                        AskFigures(yesBids, noBids), BestPrice(yesBids, true), BestPrice(noBids, true), th);
  }

  lemma AmbiguousAgreeIff(yesBids: seq<Level>, noBids: seq<Level>, th: Thresholds)
    requires yesBids != [] && noBids != []
    requires Quotes(yesBids, noBids, 100.0)
             || (Quotes(yesBids, noBids, 1.0) && exists l :: l in yesBids && l.price <= 1.0)
    ensures Agree(RustNormalised(yesBids, noBids), Normalised(BidSides(yesBids, noBids), th))
            <==> SameMarket(yesBids, noBids, th)
  {
    PythonGivesUp(yesBids, noBids, th);
    RustSees(yesBids, noBids);
    AmbiguousAgrees(RustNormalised(yesBids, noBids));
    QuotesIff(yesBids, noBids, 100.0);
    QuotesIff(yesBids, noBids, 1.0);
  }

  /** On every payload of two nonempty bid sides the parsers agree exactly under `SameMarket`. */
  lemma {:induction false} AgreeIff(ticker: string, yesBids: seq<Level>, noBids: seq<Level>, th: Thresholds)
    requires Nonnegative(yesBids) && Nonnegative(noBids) && yesBids != [] && noBids != []
    ensures Agree(RustParsed(RustBids(ticker, yesBids, noBids)), ParsedBook(Book(BidsPayload(yesBids, noBids)), th))
            <==> SameMarket(yesBids, noBids, th)
  {
    RustReads(ticker, yesBids, noBids);
    BidsPayloadSides(yesBids, noBids);
    SidesAgreeIff(yesBids, noBids, th);
  }

  lemma SidesAgreeIff(yesBids: seq<Level>, noBids: seq<Level>, th: Thresholds)
    requires Nonnegative(yesBids) && Nonnegative(noBids) && yesBids != [] && noBids != []
    ensures Agree(RustNormalised(yesBids, noBids), Normalised(BidSides(yesBids, noBids), th))
            <==> SameMarket(yesBids, noBids, th)
  {
    if !Quotes(yesBids, noBids, 1.0) {
      LowAgreeIff(yesBids, noBids, th);
    } else if Quotes(yesBids, noBids, 100.0) || exists l :: l in yesBids && l.price <= 1.0 {
      AmbiguousAgreeIff(yesBids, noBids, th);
    } else {
      WithinCents(yesBids, noBids);
      SidesAgree(yesBids, noBids, th);
    }
  }

  lemma WithinCents(yesBids: seq<Level>, noBids: seq<Level>)
    requires !Quotes(yesBids, noBids, 100.0)
    ensures forall l :: l in yesBids || l in noBids ==> l.price <= 100.0
  {
    assert forall l :: l in yesBids || l in noBids ==> l in yesBids + noBids;
  }

  /** For a payload in cents that shows itself to be one by a price above 1: agreement needs every YES
      bid above 1, or a book that is crossed. */
  lemma {:induction false} CentsAgreeIff(ticker: string, yesBids: seq<Level>, noBids: seq<Level>, th: Thresholds)
    requires Nonnegative(yesBids) && Nonnegative(noBids) && yesBids != [] && noBids != []
    requires Quotes(yesBids, noBids, 1.0) && !Quotes(yesBids, noBids, 100.0)
    ensures Agree(RustParsed(RustBids(ticker, yesBids, noBids)), ParsedBook(Book(BidsPayload(yesBids, noBids)), th))
            <==> (forall l :: l in yesBids ==> l.price > 1.0)
                 || BestPrice(yesBids, true) + BestPrice(noBids, true) >= 100.0
  {
    AgreeIff(ticker, yesBids, noBids, th);
  }
}
