/** The engine's own Kalshi parser (engine-rust/src/ingest/venuebook.rs) and how it relates to the
    Python one on the payloads both read. */
module KalshiRust {
  import opened Wrappers
  import opened Levels
  import opened KalshiBook
  import opened KalshiLaws

  datatype RustBook = RustBook(bids: seq<Level>, asks: seq<Level>)

  datatype RustError = Malformed | OutOfBounds | Crossed

  /** The fields the engine reads; a missing field is `Absent`. */
  datatype RustDocument = RustDocument(ticker: Option<string>, yesBid: RawSide, noBid: RawSide)

  /** Only two-element arrays of numbers are accepted. */
  function RustLevelOf(raw: RawLevel): Option<Level> {
    if raw.ListLevel? && |raw.items| == 2 && raw.items[0].Number? && raw.items[1].Number?
       && raw.items[0].v >= 0.0 && raw.items[1].v >= 0.0
    then Some(Level(raw.items[0].v, raw.items[1].v))
    else None
  }

  function RustLevelOrZero(raw: RawLevel): Level {
    var l := RustLevelOf(raw);
    if l.Some? then l.value else Level(0.0, 0.0)
  }

  predicate RustClean(raws: seq<RawLevel>) {
    forall raw :: raw in raws ==> RustLevelOf(raw).Some?
  }

  function RustLevels(raws: seq<RawLevel>): Option<seq<Level>> {
    if RustClean(raws) then Some(Map(RustLevelOrZero, raws)) else None
  }

  lemma RustCleanPush(raws: seq<RawLevel>, i: nat)
    requires i < |raws| && RustClean(raws[..i])
    ensures RustClean(raws[..i + 1]) <==> RustLevelOf(raws[i]).Some?
    ensures RustClean(raws[..i + 1]) ==>
              Map(RustLevelOrZero, raws[..i + 1]) == Map(RustLevelOrZero, raws[..i]) + [RustLevelOf(raws[i]).value]
    ensures RustLevelOf(raws[i]).None? ==> !RustClean(raws)
  {
    var upTo := raws[..i + 1];
    assert upTo == raws[..i] + [raws[i]];
    assert raws[i] in upTo && raws[i] in raws;
    assert forall raw :: raw in upTo ==> raw in raws[..i] || raw == raws[i];
  }

  method ParseRustLevels(raws: seq<RawLevel>) returns (r: Option<seq<Level>>)
    ensures r == RustLevels(raws)
  {
    var levels: seq<Level> := [];
    for i := 0 to |raws|
      invariant RustClean(raws[..i]) && levels == Map(RustLevelOrZero, raws[..i])
    {
      var raw := raws[i];
      RustCleanPush(raws, i);
      if !raw.ListLevel? || |raw.items| != 2 {
        return None;
      }
      var price, qty := raw.items[0], raw.items[1];
      if !price.Number? || !qty.Number? || price.v < 0.0 || qty.v < 0.0 {
        return None;
      }
      levels := levels + [Level(price.v, qty.v)];
    }
    assert raws[..|raws|] == raws;
    return Some(levels);
  }

  function RustCrossed(bids: seq<Level>, asks: seq<Level>): bool {
    bids != [] && asks != [] && BestPrice(bids, true) >= BestPrice(asks, false)
  }

  /** Both sides once parsed: bounds, complement of the NO bids, crossing, sorting. */
  function RustNormalised(yesBids: seq<Level>, noBids: seq<Level>): Result<RustBook, RustError> {
    if exists l :: l in yesBids + noBids && l.price > 100.0 then Err(OutOfBounds)
    else
      var asks := Map(Complement(Cents), noBids);
      if RustCrossed(yesBids, asks) then Err(Crossed)
      else Ok(RustBook(SortByPrice(yesBids, true), SortByPrice(asks, false)))
  }

  function RustParsed(doc: RustDocument): Result<RustBook, RustError> {
    if doc.ticker.None? || !doc.yesBid.Listed? || !doc.noBid.Listed? then Err(Malformed)
    else
      var yesBids, noBids := RustLevels(doc.yesBid.levels), RustLevels(doc.noBid.levels);
      if yesBids.None? || noBids.None? then Err(Malformed)
      else RustNormalised(yesBids.value, noBids.value)
  }

  /** The bounds check over both sides. */
  method WithinBounds(levels: seq<Level>) returns (ok: bool)
    ensures ok <==> forall l :: l in levels ==> 0.0 <= l.price <= 100.0
  {
    for i := 0 to |levels|
      invariant forall l :: l in levels[..i] ==> 0.0 <= l.price <= 100.0
    {
      assert levels[..i + 1] == levels[..i] + [levels[i]] && levels[i] in levels;
      if levels[i].price < 0.0 || levels[i].price > 100.0 {
        return false;
      }
    }
    assert levels[..|levels|] == levels;
    return true;
  }

  /** Bounds, conversion, sorting and the crossing check. */
  method Convert(yesBids: seq<Level>, noBids: seq<Level>) returns (r: Result<RustBook, RustError>)
    requires Nonnegative(yesBids) && Nonnegative(noBids)
    ensures r == RustNormalised(yesBids, noBids)
  {
    var ok := WithinBounds(yesBids + noBids);
    if !ok {
      return Err(OutOfBounds);
    }
    var unsortedAsks := Map(Complement(Cents), noBids);
    var bids, asks := SortByPrice(yesBids, true), SortByPrice(unsortedAsks, false);
    if bids != [] && asks != [] {
      SortKeeps(yesBids, true);
      SortKeeps(unsortedAsks, false);
      if bids[0].price >= asks[0].price {
        return Err(Crossed);
      }
    }
    return Ok(RustBook(bids, asks));
  }

  method ParseKalshiOrderbook(doc: RustDocument) returns (r: Result<RustBook, RustError>)
    ensures r == RustParsed(doc)
  {
    if doc.ticker.None? || !doc.yesBid.Listed? || !doc.noBid.Listed? {
      return Err(Malformed);
    }
    var yesBids := ParseRustLevels(doc.yesBid.levels);
    var noBids := ParseRustLevels(doc.noBid.levels);
    if yesBids.None? || noBids.None? {
      return Err(Malformed);
    }
    RustNonnegative(doc.yesBid.levels);
    RustNonnegative(doc.noBid.levels);
    r := Convert(yesBids.value, noBids.value);
  }

  lemma RustNonnegative(raws: seq<RawLevel>)
    requires RustClean(raws)
    ensures Nonnegative(Map(RustLevelOrZero, raws))
  {
    var levels := Map(RustLevelOrZero, raws);
    forall l | l in levels ensures l.price >= 0.0 && l.qty >= 0.0 {
      var i :| 0 <= i < |levels| && levels[i] == l;
      assert raws[i] in raws;
    }
  }

  // ----- the engine's parser is the stricter one, level by level -----

  predicate NumberList(raw: RawLevel) {
    raw.ListLevel? && forall i :: 0 <= i < |raw.items| ==> raw.items[i].Number?
  }

  /** What the engine accepts, Python reads as the same levels; on lists of plain numbers the two
      accept the same. */
  lemma StricterLevels(raws: seq<RawLevel>)
    ensures RustLevels(raws).Some? ==> ParsedLevels(raws) == RustLevels(raws)
    ensures (forall raw :: raw in raws ==> NumberList(raw)) ==> ParsedLevels(raws) == RustLevels(raws)
  {
    if RustClean(raws) {
      assert forall raw :: raw in raws ==> LevelOf(raw) == RustLevelOf(raw);
      forall i | 0 <= i < |raws| ensures LevelOrZero(raws[i]) == RustLevelOrZero(raws[i]) {
        assert raws[i] in raws;
      }
      assert Map(LevelOrZero, raws) == Map(RustLevelOrZero, raws);
    } else if forall raw :: raw in raws ==> NumberList(raw) {
      var raw :| raw in raws && RustLevelOf(raw).None?;
      assert LevelOf(raw).None?;
    }
  }

  // ----- round trip and agreement on payloads both read -----

  function EncodeLevel(l: Level): RawLevel {
    ListLevel([Number(l.price), Number(l.qty)])
  }

  function Encode(levels: seq<Level>): RawSide {
    Listed(Map(EncodeLevel, levels))
  }

  /** Writing nonnegative levels as number pairs and parsing them back gives the levels, in both. */
  lemma EncodeRoundTrip(levels: seq<Level>)
    requires Nonnegative(levels)
    ensures ParsedSide(Encode(levels)) == Some(levels) && RustLevels(Encode(levels).levels) == Some(levels)
  {
    var raws := Map(EncodeLevel, levels);
    forall i | 0 <= i < |raws| ensures RustLevelOf(raws[i]) == Some(levels[i]) && NumberList(raws[i]) {
      assert levels[i] in levels;
    }
    assert Map(RustLevelOrZero, raws) == levels;
    StricterLevels(raws);
  }

  /** A level as an object, its quantity under any of the three names, or several. */
  function EncodeObject(l: Level, names: nat): RawLevel {
    ObjectLevel(Some(Number(l.price)), seq(names + 1, i => Number(l.qty)))
  }

  function EncodeObjects(levels: seq<Level>, names: nat): RawSide {
    Listed(Map((l: Level) => EncodeObject(l, names), levels))
  }

  /** Levels written as objects are read back by Python, and refused by the engine. */
  lemma {:induction false} ObjectRoundTrip(levels: seq<Level>, names: nat)
    requires Nonnegative(levels)
    ensures ParsedSide(EncodeObjects(levels, names)) == Some(levels)
    ensures levels != [] ==> RustLevels(EncodeObjects(levels, names).levels) == None
  {
    var raws := EncodeObjects(levels, names).levels;
    forall i | 0 <= i < |raws| ensures LevelOf(raws[i]) == Some(levels[i]) && raws[i].ObjectLevel? {
      assert levels[i] in levels;
      LevelOfIff(raws[i], levels[i]);
    }
    assert Map(LevelOrZero, raws) == levels;
    if levels != [] {
      assert raws[0] in raws;
    }
  }

  /** A book with its sides inside the yes and no containers. */
  function NestedPayload(s: Sides): Payload {
    Payload(Absent, Absent, Absent, Absent, Encode(s.yesBids), Encode(s.yesAsks), Encode(s.noBids), Encode(s.noAsks))
  }

  /** Both places of every side. */
  function BothPlaces(top: Sides, nested: Sides): Payload {
    Payload(Encode(top.yesBids), Encode(top.yesAsks), Encode(top.noBids), Encode(top.noAsks),
            Encode(nested.yesBids), Encode(nested.yesAsks), Encode(nested.noBids), Encode(nested.noAsks))
  }

  lemma SideFromEither(top: seq<Level>, nested: seq<Level>)
    requires Nonnegative(top) && Nonnegative(nested)
    ensures Pick(Encode(top), Encode(nested)) != Absent && Pick(Absent, Encode(nested)) != Absent
    ensures ParsedSide(Pick(Encode(top), Encode(nested))) == Some(if top != [] then top else nested)
    ensures ParsedSide(Pick(Absent, Encode(nested))) == Some(nested)
  {
    EncodeRoundTrip(top);
    EncodeRoundTrip(nested);
  }

  /** Sides are found in the containers too; where a side is at the top level as well, that one counts
      unless it is empty. */
  lemma {:induction false} SidesFromEither(top: Sides, nested: Sides)
    requires NonnegativeSides(top) && NonnegativeSides(nested)
    ensures ParsedSides(NestedPayload(nested)) == Some(nested)
    ensures ParsedSides(BothPlaces(top, nested))
            == Some(Sides(if top.yesBids != [] then top.yesBids else nested.yesBids,
                          if top.yesAsks != [] then top.yesAsks else nested.yesAsks,
                          if top.noBids != [] then top.noBids else nested.noBids,
                          if top.noAsks != [] then top.noAsks else nested.noAsks))
  {
    SideFromEither(top.yesBids, nested.yesBids);
    SideFromEither(top.yesAsks, nested.yesAsks);
    SideFromEither(top.noBids, nested.noBids);
    SideFromEither(top.noAsks, nested.noAsks);
  }

  /** The engine's parser reads a document exactly when it has a ticker and both sides are lists of pairs
      of nonnegative numbers. */
  lemma {:induction false} MalformedIff(doc: RustDocument)
    ensures RustParsed(doc) != Err(Malformed) <==>
            && doc.ticker.Some? && doc.yesBid.Listed? && doc.noBid.Listed?
            && forall raw :: raw in doc.yesBid.levels || raw in doc.noBid.levels ==>
                 exists p, q :: raw == ListLevel([Number(p), Number(q)]) && p >= 0.0 && q >= 0.0
  {
    if doc.yesBid.Listed? && doc.noBid.Listed? {
      forall raw | raw in doc.yesBid.levels || raw in doc.noBid.levels
        ensures RustLevelOf(raw).Some? <==> exists p, q :: raw == ListLevel([Number(p), Number(q)]) && p >= 0.0 && q >= 0.0
      {
        PairIff(raw);
      }
    }
  }

  lemma PairIff(raw: RawLevel)
    ensures RustLevelOf(raw).Some? <==> exists p, q :: raw == ListLevel([Number(p), Number(q)]) && p >= 0.0 && q >= 0.0
  {
    if RustLevelOf(raw).Some? {
      var p, q := raw.items[0].v, raw.items[1].v;
      assert raw.items == [Number(p), Number(q)];
      assert raw == ListLevel([Number(p), Number(q)]);
    }
  }

  /** The Python payload that carries just the two bid sides. */
  function BidsPayload(yesBids: seq<Level>, noBids: seq<Level>): Payload {
    Payload(Encode(yesBids), Absent, Encode(noBids), Absent, Absent, Absent, Absent, Absent)
  }

  lemma BidsPayloadSides(yesBids: seq<Level>, noBids: seq<Level>)
    requires Nonnegative(yesBids) && Nonnegative(noBids) && yesBids != [] && noBids != []
    ensures ParsedSides(BidsPayload(yesBids, noBids)) == Some(Sides(yesBids, [], noBids, []))
  {
    EncodeRoundTrip(yesBids);
    EncodeRoundTrip(noBids);
  }

  function Document4(s: Sides): Document {
    Book(Payload(Encode(s.yesBids), Encode(s.yesAsks), Encode(s.noBids), Encode(s.noAsks), Absent, Absent, Absent, Absent))
  }

  lemma PickedSide(levels: seq<Level>)
    requires Nonnegative(levels)
    ensures ParsedSide(Pick(Encode(levels), Absent)) == Some(levels)
    ensures Pick(Encode(levels), Absent) == Absent <==> levels == []
  {
    EncodeRoundTrip(levels);
  }

  /** The whole way from the document: quoting every price in dollars instead of cents changes
      nothing in the result. */
  lemma {:induction false} DocumentUnitInvariance(s: Sides, th: Thresholds)
    requires NonnegativeSides(s)
    requires Deciding(s) != [] && forall l :: l in Deciding(s) ==> 1.0 < l.price <= 100.0
    ensures ParsedBook(Document4(InDollars(s)), th) == ParsedBook(Document4(s), th)
  {
    Document4Sides(s);
    DollarsNonnegative(s.yesBids);
    DollarsNonnegative(s.yesAsks);
    DollarsNonnegative(s.noBids);
    DollarsNonnegative(s.noAsks);
    Document4Sides(InDollars(s));
    UnitInvariance(s, th);
  }

  lemma DollarsNonnegative(levels: seq<Level>)
    requires Nonnegative(levels)
    ensures Nonnegative(Map(PerHundred, levels))
  {
    var scaled := Map(PerHundred, levels);
    forall l | l in scaled ensures l.price >= 0.0 && l.qty >= 0.0 {
      var i :| 0 <= i < |scaled| && scaled[i] == l;
      assert levels[i] in levels;
    }
  }

  lemma Document4Sides(s: Sides)
    requires NonnegativeSides(s)
    requires s != Sides([], [], [], [])
    ensures ParsedSides(Document4(s).payload) == Some(s)
  {
    PickedSide(s.yesBids);
    PickedSide(s.yesAsks);
    PickedSide(s.noBids);
    PickedSide(s.noAsks);
  }

  /** Dividing prices by 100 divides the best price by 100. */
  lemma BestInDollars(levels: seq<Level>, desc: bool)
    requires levels != []
    ensures BestPrice(Map(ToDollars(Cents), levels), desc) * 100.0 == BestPrice(levels, desc)
  {
    var scaled := Map(ToDollars(Cents), levels);
    var best := BestPrice(levels, desc);
    var i := BestLevel(levels, desc);
    assert scaled[i].price == best / 100.0;
    assert forall j :: 0 <= j < |scaled| ==> scaled[j].price == levels[j].price / 100.0;
    BestPriceIs(scaled, desc, best / 100.0);
  }

  lemma CentsYesSides(yesBids: seq<Level>, noBids: seq<Level>)
    requires yesBids != [] && noBids != []
    requires forall l :: l in yesBids ==> 1.0 < l.price <= 100.0
    requires forall l :: l in noBids ==> l.price <= 100.0
    ensures YesSides(Sides(yesBids, [], noBids, []))
            == Some((Map(ToDollars(Cents), yesBids), Map(ToDollars(Cents), Map(Complement(Cents), noBids))))
  {
    assert yesBids + [] == yesBids;
    CentsIff(yesBids);
    AnyIs(noBids, 100.0);
    CentsSides(yesBids, noBids);
  }

  lemma CentsSides(yesBids: seq<Level>, noBids: seq<Level>)
    requires yesBids != [] && noBids != []
    requires !AnyAbove(noBids, 100.0)
    ensures SidesIn(Cents, Sides(yesBids, [], noBids, []))
            == Some((Map(ToDollars(Cents), yesBids), Map(ToDollars(Cents), Map(Complement(Cents), noBids))))
  {
  }

  /** The engine calls the book crossed exactly when Python calls it ambiguous, and otherwise a
      book that Python passes as OK has the engine's best prices. */
  ghost predicate Agree(rust: Result<RustBook, RustError>, python: VenueBook) {
    && (rust == Err(Crossed) <==> python.failReason == Some(ParseAmbiguous))
    && (rust.Ok? <==> python.failReason != Some(ParseAmbiguous))
    && (python.Tradable() ==>
          && rust.Ok? && rust.value.bids != [] && rust.value.asks != []
          && python.bestBid.Some? && python.bestAsk.Some?
          && python.bestBid.value * 100.0 == rust.value.bids[0].price
          && python.bestAsk.value * 100.0 == rust.value.asks[0].price)
  }

  lemma ClassifyAgrees(bids: seq<Level>, asks: seq<Level>, th: Thresholds)
    requires bids != [] && asks != []
    ensures Agree(if RustCrossed(bids, asks) then Err(Crossed)
                  else Ok(RustBook(SortByPrice(bids, true), SortByPrice(asks, false))),
                  Classify(Map(ToDollars(Cents), bids), Map(ToDollars(Cents), asks), th))
  {
    BestInDollars(bids, true);
    BestInDollars(asks, false);
    SortKeeps(bids, true);
    SortKeeps(asks, false);
  }

  lemma SidesAgree(yesBids: seq<Level>, noBids: seq<Level>, th: Thresholds)
    requires yesBids != [] && noBids != []
    requires forall l :: l in yesBids ==> 1.0 < l.price <= 100.0
    requires forall l :: l in noBids ==> l.price <= 100.0
    ensures Agree(RustNormalised(yesBids, noBids), Normalised(Sides(yesBids, [], noBids, []), th))
  {
    CentsYesSides(yesBids, noBids);
    assert forall l :: l in yesBids + noBids ==> l in yesBids || l in noBids;
    ClassifyAgrees(yesBids, Map(Complement(Cents), noBids), th);
  }

  /** The engine's and Python's documents that carry the same two bid sides. */
  function RustBids(ticker: string, yesBids: seq<Level>, noBids: seq<Level>): RustDocument {
    RustDocument(Some(ticker), Encode(yesBids), Encode(noBids))
  }

  /** On cents payloads the two parsers see the same market. */
  lemma {:induction false} ParsersAgree(ticker: string, yesBids: seq<Level>, noBids: seq<Level>, th: Thresholds)
    requires Nonnegative(yesBids) && Nonnegative(noBids) && yesBids != [] && noBids != []
    requires forall l :: l in yesBids ==> 1.0 < l.price <= 100.0
    requires forall l :: l in noBids ==> l.price <= 100.0
    ensures Agree(RustParsed(RustBids(ticker, yesBids, noBids)), ParsedBook(Book(BidsPayload(yesBids, noBids)), th))
  {
    RustReads(ticker, yesBids, noBids);
    BidsPayloadSides(yesBids, noBids);
    SidesAgree(yesBids, noBids, th);
  }

  lemma RustReads(ticker: string, yesBids: seq<Level>, noBids: seq<Level>)
    requires Nonnegative(yesBids) && Nonnegative(noBids)
    ensures RustParsed(RustBids(ticker, yesBids, noBids)) == RustNormalised(yesBids, noBids)
  {
    EncodeRoundTrip(yesBids);
    EncodeRoundTrip(noBids);
  }

  /** At 1 cent and below the agreement ends: Python takes these YES bids for dollars and finds the
      NO bids out of range, while the engine sees an ordinary book. */
  lemma {:induction false} OneCentDisagreement(ticker: string, yes: Level, no: Level, th: Thresholds)
    requires 0.0 <= yes.price <= 1.0 < no.price < 99.0 && yes.qty >= 0.0 && no.qty >= 0.0
    ensures RustParsed(RustBids(ticker, [yes], [no])).Ok?
    ensures ParsedBook(Book(BidsPayload([yes], [no])), th) == AMBIGUOUS
  {
    RustReads(ticker, [yes], [no]);
    BidsPayloadSides([yes], [no]);
    OneLevelCrossing(yes, no);
    OneLevelRange(yes, no);
  }

  lemma OneLevelCrossing(yes: Level, no: Level)
    requires 0.0 <= yes.price <= 1.0 < no.price < 99.0
    ensures RustNormalised([yes], [no]).Ok?
  {
    assert Map(Complement(Cents), [no])[0].price == 100.0 - no.price;
    assert BestPrice([yes], true) == yes.price;
  }

  lemma OneLevelRange(yes: Level, no: Level)
    requires yes.price <= 1.0 < no.price
    ensures YesSides(Sides([yes], [], [no], [])) == None
  {
    assert [yes] + [] == [yes] && [no][0] == no;
    CentsIff([yes]);
  }
}
