/** Normalisation of a Kalshi order book (venues/kalshi.py).

    JSON is seen through a small tagged type: what `float(...)` makes of a value, whether a level is
    an object or a list, and whether a side is missing, a list, or something else. */
module KalshiBook {
  import opened Wrappers
  import opened Levels

  // ----- raw documents -----

  /** A JSON value where a number is expected; equal texts parse to equal numbers. */
  datatype Scalar = Number(v: real) | Text(text: string, parsed: Option<real>) | NotFinite | NotNumeric

  /** `quantities` are the values of the size, qty and quantity fields that are present. */
  datatype RawLevel =
    | ObjectLevel(price: Option<Scalar>, quantities: seq<Scalar>)
    | ListLevel(items: seq<Scalar>)
    | OtherLevel

  datatype RawSide = Absent | NotAList(truthy: bool) | Listed(levels: seq<RawLevel>)

  /** The four sides, as top-level fields and inside the yes and no containers. */
  datatype Payload = Payload(
    yesBid: RawSide, yesAsk: RawSide, noBid: RawSide, noAsk: RawSide,
    yesBids: RawSide, yesAsks: RawSide, noBids: RawSide, noAsks: RawSide)

  datatype Document = NotAnObject | Book(payload: Payload)

  // ----- levels -----

  function ToFloat(s: Scalar): Option<real> {
    match s
    case Number(v) => Some(v)
    case Text(_, parsed) => parsed
    case _ => None
  }

  function MakeLevel(price: Scalar, qty: Scalar): Option<Level> {
    var p, q := ToFloat(price), ToFloat(qty);
    if p.Some? && q.Some? && p.value >= 0.0 && q.value >= 0.0 then Some(Level(p.value, q.value)) else None
  }

  /** One level on its own: present fields, agreeing quantities, finite nonnegative numbers. */
  function LevelOf(raw: RawLevel): Option<Level> {
    match raw
    case ObjectLevel(price, quantities) =>
      if price.None? || quantities == [] || (exists i :: 0 <= i < |quantities| && quantities[i] != quantities[0])
      then None
      else MakeLevel(price.value, quantities[0])
    case ListLevel(items) => if |items| == 2 then MakeLevel(items[0], items[1]) else None
    case OtherLevel => None
  }

  /** The texts and numbers that stand for a number. */
  ghost predicate Says(s: Scalar, v: real) {
    s == Number(v) || (s.Text? && s.parsed == Some(v))
  }

  /** A level is read exactly from a finite nonnegative price and quantity: an object's `price` and its
      quantity fields, which must all be the same, or the first and second element of a pair. */
  lemma LevelOfIff(raw: RawLevel, l: Level)
    ensures LevelOf(raw) == Some(l) <==>
            && l.price >= 0.0 && l.qty >= 0.0
            && match raw
               case ObjectLevel(price, quantities) =>
                 && price.Some? && Says(price.value, l.price) && quantities != [] && Says(quantities[0], l.qty)
                 && forall i :: 0 <= i < |quantities| ==> quantities[i] == quantities[0]
               case ListLevel(items) => |items| == 2 && Says(items[0], l.price) && Says(items[1], l.qty)
               case OtherLevel => false
  {
  }

  /** A list of levels is acceptable when each one is, and all have the same shape. */
  predicate Clean(raws: seq<RawLevel>) {
    && (forall raw :: raw in raws ==> LevelOf(raw).Some?)
    && ((forall raw :: raw in raws ==> raw.ObjectLevel?) || (forall raw :: raw in raws ==> raw.ListLevel?))
  }

  function LevelOrZero(raw: RawLevel): Level {
    var l := LevelOf(raw);
    if l.Some? then l.value else Level(0.0, 0.0)
  }

  /** The levels of a clean list, in order. */
  function ParsedLevels(raws: seq<RawLevel>): Option<seq<Level>> {
    if Clean(raws) then Some(Map(LevelOrZero, raws)) else None
  }

  /** One more level keeps a list clean when it is fine itself and has the shape of the first. */
  lemma CleanPush(raws: seq<RawLevel>, i: nat)
    requires i < |raws| && Clean(raws[..i])
    ensures Clean(raws[..i + 1]) <==>
            LevelOf(raws[i]).Some? && (i == 0 || raws[i].ObjectLevel? == raws[0].ObjectLevel?)
    ensures Clean(raws[..i + 1]) ==> Map(LevelOrZero, raws[..i + 1]) == Map(LevelOrZero, raws[..i]) + [LevelOf(raws[i]).value]
  {
    var upTo := raws[..i + 1];
    assert upTo == raws[..i] + [raws[i]];
    if Clean(upTo) {
      assert raws[0] in upTo && raws[i] in upTo;
    }
    if LevelOf(raws[i]).Some? && (i == 0 || raws[i].ObjectLevel? == raws[0].ObjectLevel?) {
      assert i > 0 ==> raws[0] in raws[..i];
      assert forall raw :: raw in upTo ==> raw in raws[..i] || raw == raws[i];
    }
  }

  lemma DirtyPrefix(raws: seq<RawLevel>, i: nat)
    requires i <= |raws| && !Clean(raws[..i])
    ensures !Clean(raws)
  {
    assert forall raw :: raw in raws[..i] ==> raw in raws;
  }

  /** The parsing loop; `None` is the error that makes the whole book ambiguous. */
  method ParseLevels(raws: seq<RawLevel>) returns (r: Option<seq<Level>>)
    ensures r == ParsedLevels(raws)
  {
    var levels: seq<Level> := [];
    var shape: Option<bool> := None;  // Some(true) for objects, Some(false) for lists
    for i := 0 to |raws|
      invariant Clean(raws[..i]) && levels == Map(LevelOrZero, raws[..i])
      invariant shape == if i == 0 then None else Some(raws[0].ObjectLevel?)
    {
      var raw := raws[i];
      CleanPush(raws, i);
      if !Clean(raws[..i + 1]) {
        DirtyPrefix(raws, i + 1);
      }
      if raw.ObjectLevel? {
        if shape == Some(false) {
          return None;
        }
        shape := Some(true);
      } else if raw.ListLevel? && |raw.items| == 2 {
        if shape == Some(true) {
          return None;
        }
        shape := Some(false);
      } else {
        return None;
      }
      if LevelOf(raw).None? {
        return None;
      }
      levels := levels + [LevelOf(raw).value];
    }
    assert raws[..|raws|] == raws;
    return Some(levels);
  }

  // ----- sides -----

  /** Python's `or`: the first operand unless it is falsy. */
  function Pick(top: RawSide, nested: RawSide): RawSide {
    if (top.Listed? && top.levels != []) || (top.NotAList? && top.truthy) then top else nested
  }

  function ParsedSide(raw: RawSide): Option<seq<Level>> {
    match raw
    case Absent => Some([])
    case NotAList(_) => None
    case Listed(levels) => ParsedLevels(levels)
  }

  datatype Sides = Sides(yesBids: seq<Level>, yesAsks: seq<Level>, noBids: seq<Level>, noAsks: seq<Level>)

  /** All four sides, or `None` when all are missing or any is malformed. */
  function ParsedSides(p: Payload): Option<Sides> {
    var yesBid, yesAsk := Pick(p.yesBid, p.yesBids), Pick(p.yesAsk, p.yesAsks);
    var noBid, noAsk := Pick(p.noBid, p.noBids), Pick(p.noAsk, p.noAsks);
    if yesBid == Absent && yesAsk == Absent && noBid == Absent && noAsk == Absent then None
    else
      var yb, ya, nb, na := ParsedSide(yesBid), ParsedSide(yesAsk), ParsedSide(noBid), ParsedSide(noAsk);
      if yb.Some? && ya.Some? && nb.Some? && na.Some? then Some(Sides(yb.value, ya.value, nb.value, na.value))
      else None
  }

  // ----- units -----

  datatype Unit = Cents | Dollars

  /** What one full contract costs in the unit. */
  function One(u: Unit): real {
    if u == Cents then 100.0 else 1.0
  }

  /** The unit is decided by the YES levels, or by the NO levels when there are none. */
  function Deciding(s: Sides): seq<Level> {
    if s.yesBids + s.yesAsks != [] then s.yesBids + s.yesAsks else s.noBids + s.noAsks
  }

  /** Some price lies above the limit. */
  predicate AnyAbove(levels: seq<Level>, limit: real) {
    levels != [] && (levels[|levels| - 1].price > limit || AnyAbove(levels[..|levels| - 1], limit))
  }

  predicate AnyAtMost(levels: seq<Level>, limit: real) {
    levels != [] && (levels[|levels| - 1].price <= limit || AnyAtMost(levels[..|levels| - 1], limit))
  }

  lemma {:induction false} AnyIs(levels: seq<Level>, limit: real)
    ensures AnyAbove(levels, limit) <==> exists l :: l in levels && l.price > limit
    ensures AnyAtMost(levels, limit) <==> exists l :: l in levels && l.price <= limit
  {
    if levels != [] {
      var n := |levels| - 1;
      AnyIs(levels[..n], limit);
      assert forall l :: l in levels <==> l in levels[..n] || l == levels[n];
    }
  }

  /** Dollars when no price exceeds 1, cents when every price does, up to 100. */
  function DetectUnit(levels: seq<Level>): Option<Unit> {
    if levels == [] then None
    else
      var low, high := AnyAtMost(levels, 1.0), AnyAbove(levels, 1.0);
      if low && high then None
      else if AnyAbove(levels, 100.0) then None
      else Some(if high then Cents else Dollars)
  }

  function ToDollars(u: Unit): Level -> Level {
    (l: Level) => if u == Cents then Level(l.price / 100.0, l.qty) else Level(l.price / 1.0, l.qty)
  }

  /** Selling one outcome at `price` is buying the other at the complement. */
  function Complement(u: Unit): Level -> Level {
    (l: Level) => Level(One(u) - l.price, l.qty)
  }

  /** A YES side: the quoted one, or the complement of the NO side when it is empty. */
  function Derived(u: Unit, quoted: seq<Level>, opposite: seq<Level>): Option<seq<Level>> {
    if quoted == [] && opposite != [] then
      if AnyAbove(opposite, One(u)) then None
      else Some(Map(Complement(u), opposite))
    else Some(quoted)
  }

  // ----- the result -----

  datatype FailReason = NoBbo | DepthBelowThreshold | SpreadWide | BookUnavailable | ParseAmbiguous

  datatype VenueBook = VenueBook(
    bestBid: Option<real>, bestAsk: Option<real>,
    depthQty: real, depthNotional: Option<real>, failReason: Option<FailReason>)
  {
    /** Status OK. */
    predicate Tradable() {
      failReason == None
    }
  }

  datatype Thresholds = Thresholds(depthNotionalMin: real, spreadMax: real)

  const AMBIGUOUS := VenueBook(None, None, 0.0, None, Some(ParseAmbiguous))

  function Failed(bids: seq<Level>, asks: seq<Level>, reason: FailReason): VenueBook {
    VenueBook(None, None, TotalQty(bids) + TotalQty(asks), Some(TotalNotional(bids) + TotalNotional(asks)), Some(reason))
  }

  /** The verdict on two sides in dollars. */
  function Classify(bids: seq<Level>, asks: seq<Level>, th: Thresholds): VenueBook {
    if bids == [] || asks == [] then Failed(bids, asks, NoBbo)
    else
      var bid, ask := BestPrice(bids, true), BestPrice(asks, false);
      if bid >= ask then Failed(bids, asks, ParseAmbiguous)
      else if TotalNotional(bids) + TotalNotional(asks) < th.depthNotionalMin then Failed(bids, asks, DepthBelowThreshold)
      else if ask - bid > th.spreadMax then Failed(bids, asks, SpreadWide)
      else VenueBook(Some(bid), Some(ask), TotalQty(bids) + TotalQty(asks),
                     Some(TotalNotional(bids) + TotalNotional(asks)), None)
  }

  /** Both YES sides in dollars, of a book quoted in `u`. */
  function SidesIn(u: Unit, s: Sides): Option<(seq<Level>, seq<Level>)> {
    var bids, asks := Derived(u, s.yesBids, s.noAsks), Derived(u, s.yesAsks, s.noBids);
    if bids.None? || asks.None? then None
    else Some((Map(ToDollars(u), bids.value), Map(ToDollars(u), asks.value)))
  }

  /** Both YES sides in dollars, in the unit that is detected. */
  function YesSides(s: Sides): Option<(seq<Level>, seq<Level>)> {
    match DetectUnit(Deciding(s))
    case None => None
    case Some(u) => SidesIn(u, s)
  }

  function Normalised(s: Sides, th: Thresholds): VenueBook {
    match YesSides(s)
    case None => AMBIGUOUS
    case Some((bids, asks)) => Classify(bids, asks, th)
  }

  function ParsedBook(doc: Document, th: Thresholds): VenueBook {
    match doc
    case NotAnObject => AMBIGUOUS
    case Book(payload) =>
      (match ParsedSides(payload)
       case None => AMBIGUOUS
       case Some(sides) => Normalised(sides, th))
  }

  // ----- the parser -----

  method ParseSide(raw: RawSide) returns (r: Option<seq<Level>>)
    ensures r == ParsedSide(raw)
  {
    match raw {
      case Absent => r := Some([]);
      case NotAList(_) => r := None;
      case Listed(levels) => r := ParseLevels(levels);
    }
  }

  /** The loop that builds a side from the complement of the other outcome. */
  method DeriveSide(u: Unit, quoted: seq<Level>, opposite: seq<Level>) returns (r: Option<seq<Level>>)
    ensures r == Derived(u, quoted, opposite)
  {
    if quoted != [] || opposite == [] {
      return Some(quoted);
    }
    var derived: seq<Level> := [];
    for i := 0 to |opposite|
      invariant derived == Map(Complement(u), opposite[..i])
      invariant !AnyAbove(opposite[..i], One(u))
    {
      assert opposite[..i + 1] == opposite[..i] + [opposite[i]];
      if opposite[i].price > One(u) {
        AnyIs(opposite, One(u));
        return None;
      }
      derived := derived + [Level(One(u) - opposite[i].price, opposite[i].qty)];
    }
    assert opposite[..|opposite|] == opposite;
    return Some(derived);
  }

  /** Sorts both sides, reads the best prices off their heads and applies the gates. */
  method Gate(bids: seq<Level>, asks: seq<Level>, th: Thresholds) returns (book: VenueBook)
    ensures book == Classify(bids, asks, th)
  {
    if bids == [] || asks == [] {
      return Failed(bids, asks, NoBbo);
    }
    var sortedBids, sortedAsks := SortByPrice(bids, true), SortByPrice(asks, false);
    SortKeeps(bids, true);
    SortKeeps(asks, false);
    var bestBid, bestAsk := sortedBids[0].price, sortedAsks[0].price;
    var depthQty := TotalQty(sortedBids) + TotalQty(sortedAsks);
    var notional := TotalNotional(sortedBids) + TotalNotional(sortedAsks);
    if bestBid >= bestAsk {
      return VenueBook(None, None, depthQty, Some(notional), Some(ParseAmbiguous));
    }
    if notional < th.depthNotionalMin {
      return VenueBook(None, None, depthQty, Some(notional), Some(DepthBelowThreshold));
    }
    if bestAsk - bestBid > th.spreadMax {
      return VenueBook(None, None, depthQty, Some(notional), Some(SpreadWide));
    }
    return VenueBook(Some(bestBid), Some(bestAsk), depthQty, Some(notional), None);
  }

  method ReadSides(p: Payload) returns (r: Option<Sides>)
    ensures r == ParsedSides(p)
  {
    var rawYesBid, rawYesAsk := Pick(p.yesBid, p.yesBids), Pick(p.yesAsk, p.yesAsks);
    var rawNoBid, rawNoAsk := Pick(p.noBid, p.noBids), Pick(p.noAsk, p.noAsks);
    if rawYesBid == Absent && rawYesAsk == Absent && rawNoBid == Absent && rawNoAsk == Absent {
      return None;
    }
    var yesBids := ParseSide(rawYesBid);
    var yesAsks := ParseSide(rawYesAsk);
    var noBids := ParseSide(rawNoBid);
    var noAsks := ParseSide(rawNoAsk);
    if yesBids.None? || yesAsks.None? || noBids.None? || noAsks.None? {
      return None;
    }
    return Some(Sides(yesBids.value, yesAsks.value, noBids.value, noAsks.value));
  }

  method ParseKalshiBook(doc: Document, th: Thresholds) returns (book: VenueBook)
    ensures book == ParsedBook(doc, th)
  {
    if doc.NotAnObject? {
      return AMBIGUOUS;
    }
    var sides := ReadSides(doc.payload);
    if sides.None? {
      return AMBIGUOUS;
    }
    var s := sides.value;
    var unit := DetectUnit(Deciding(s));
    if unit.None? {
      return AMBIGUOUS;
    }
    var bids := DeriveSide(unit.value, s.yesBids, s.noAsks);
    if bids.None? {
      return AMBIGUOUS;
    }
    var asks := DeriveSide(unit.value, s.yesAsks, s.noBids);
    if asks.None? {
      return AMBIGUOUS;
    }
    book := Gate(Map(ToDollars(unit.value), bids.value), Map(ToDollars(unit.value), asks.value), th);
  }
}
