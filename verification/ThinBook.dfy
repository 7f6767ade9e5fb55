/** The two thin-book classifiers: `classify_thin_book` of shared/venue_book.py and of
    engine-rust/src/strategy.rs. The Python one says it matches the other exactly; it does not, and
    `ClassifiersRelate` says how far it does. */
module ThinBook {
  import opened Wrappers
  import opened Levels

  /** A normalised book: bids best first, asks best first. */
  datatype Book = Book(bids: seq<Level>, asks: seq<Level>)

  datatype Verdict = NotThin | NoBbo | SpreadWide | DepthBelowThreshold | CrossedError

  // ----- engine-rust/src/strategy.rs -----

  const THIN_BOOK_SPREAD_THRESHOLD: real := 5.0
  const THIN_BOOK_DEPTH_LEVELS: nat := 3
  const THIN_BOOK_DEPTH_THRESHOLD: real := 500.0

  /** The first `levels` levels of a side, or all of them. */
  function Top(side: seq<Level>, levels: nat): seq<Level> {
    if |side| <= levels then side else side[..levels]
  }

  function BidDepth(book: Book, levels: nat): real {
    TotalQty(Top(book.bids, levels))
  }

  function AskDepth(book: Book, levels: nat): real {
    TotalQty(Top(book.asks, levels))
  }

  function RustDepth(book: Book): real {
    BidDepth(book, THIN_BOOK_DEPTH_LEVELS) + AskDepth(book, THIN_BOOK_DEPTH_LEVELS)
  }

  function RustVerdict(book: Book): Verdict {
    if book.bids == [] || book.asks == [] then NoBbo
    else
      var bid, ask := book.bids[0].price, book.asks[0].price;
      if bid >= ask then CrossedError
      else
        var spread := ask - bid;
        if spread > THIN_BOOK_SPREAD_THRESHOLD then SpreadWide
        else if RustDepth(book) < THIN_BOOK_DEPTH_THRESHOLD then DepthBelowThreshold
        else NotThin
  }

  // ----- shared/venue_book.py -----

  function BestOf(side: seq<Level>): Option<real> {
    if side != [] then Some(side[0].price) else None
  }

  function TotalDepth(book: Book): real {
    TotalQty(book.bids) + TotalQty(book.asks)
  }

  function PythonVerdict(book: Book): Verdict {
    var bb, ba := BestOf(book.bids), BestOf(book.asks);
    if bb.None? || ba.None? then NoBbo
    else if bb.value >= ba.value then CrossedError
    else if ba.value - bb.value > 5.0 then SpreadWide
    else if TotalDepth(book) < 500.0 then DepthBelowThreshold
    else NotThin
  }

  // ----- what each says -----

  /** A verdict for a book whose depth is measured as `depth`. */
  ghost predicate VerdictIs(book: Book, depth: real, v: Verdict) {
    var twoSided := book.bids != [] && book.asks != [];
    && (v == NoBbo <==> !twoSided)
    && (v == CrossedError <==> twoSided && book.bids[0].price >= book.asks[0].price)
    && (v == SpreadWide <==> twoSided && book.asks[0].price > book.bids[0].price + 5.0
                             && book.bids[0].price < book.asks[0].price)
    && (v == DepthBelowThreshold <==>
          twoSided && book.bids[0].price < book.asks[0].price <= book.bids[0].price + 5.0 && depth < 500.0)
    && (v == NotThin <==>
          twoSided && book.bids[0].price < book.asks[0].price <= book.bids[0].price + 5.0 && depth >= 500.0)
  }

  /** The engine measures the first three levels of each side, Python all of them. */
  lemma VerdictsAre(book: Book)
    ensures VerdictIs(book, RustDepth(book), RustVerdict(book))
    ensures VerdictIs(book, TotalQty(book.bids) + TotalQty(book.asks), PythonVerdict(book))
    ensures |book.bids| > 3 ==> BidDepth(book, 3) == TotalQty(book.bids[..3])
    ensures |book.asks| > 3 ==> AskDepth(book, 3) == TotalQty(book.asks[..3])
    ensures RustDepth(book) == BidDepth(book, 3) + AskDepth(book, 3)
  {
  }

  // ----- how they relate -----

  ghost predicate QuantitiesNonnegative(levels: seq<Level>) {
    forall i :: 0 <= i < |levels| ==> levels[i].qty >= 0.0
  }

  lemma {:induction false} PrefixQty(levels: seq<Level>, n: nat)
    requires n <= |levels| && QuantitiesNonnegative(levels)
    ensures TotalQty(levels[..n]) <= TotalQty(levels)
  {
    if n == |levels| {
      assert levels[..n] == levels;
    } else {
      var m := |levels| - 1;
      PrefixQty(levels[..m], n);
      assert levels[..m][..n] == levels[..n];
    }
  }

  /** Both sides are quoted, do not cross and are close enough, the top three levels of each side do
      not make up the depth, and all levels together do. */
  predicate DeepBelowTheTop(book: Book) {
    && book.bids != [] && book.asks != []
    && book.bids[0].price < book.asks[0].price <= book.bids[0].price + 5.0
    && RustDepth(book) < 500.0 <= TotalDepth(book)
  }

  /** Where the classifiers agree: on every error and every verdict but depth; whatever the engine
      passes, Python passes; they differ exactly when only the levels below the third make up the
      depth of a book that passes the other gates; so never when no side has more than three levels. */
  lemma ClassifiersRelate(book: Book)
    requires QuantitiesNonnegative(book.bids) && QuantitiesNonnegative(book.asks)
    ensures RustVerdict(book) == NotThin ==> PythonVerdict(book) == NotThin
    ensures RustVerdict(book) == NoBbo <==> PythonVerdict(book) == NoBbo
    ensures RustVerdict(book) == SpreadWide <==> PythonVerdict(book) == SpreadWide
    ensures RustVerdict(book) == CrossedError <==> PythonVerdict(book) == CrossedError
    ensures RustVerdict(book) != PythonVerdict(book) <==> DeepBelowTheTop(book)
    ensures |book.bids| <= THIN_BOOK_DEPTH_LEVELS && |book.asks| <= THIN_BOOK_DEPTH_LEVELS ==>
              RustVerdict(book) == PythonVerdict(book)
  {
    PrefixQty(book.bids, |Top(book.bids, THIN_BOOK_DEPTH_LEVELS)|);
    PrefixQty(book.asks, |Top(book.asks, THIN_BOOK_DEPTH_LEVELS)|);
  }

  /** The exact match claimed in shared/venue_book.py fails on this book: four bid levels, the last
      of which carries the depth. */
  lemma NotAnExactMatch()
    ensures var book := Book([Level(50.0, 1.0), Level(49.0, 1.0), Level(48.0, 1.0), Level(47.0, 600.0)],
                             [Level(51.0, 1.0)]);
            PythonVerdict(book) == NotThin && RustVerdict(book) == DepthBelowThreshold
  {
    var bids := [Level(50.0, 1.0), Level(49.0, 1.0), Level(48.0, 1.0), Level(47.0, 600.0)];
    var asks := [Level(51.0, 1.0)];
    QtyPush([], Level(50.0, 1.0));
    QtyPush([Level(50.0, 1.0)], Level(49.0, 1.0));
    QtyPush([Level(50.0, 1.0), Level(49.0, 1.0)], Level(48.0, 1.0));
    QtyPush([], Level(51.0, 1.0));
    var top := [Level(50.0, 1.0), Level(49.0, 1.0), Level(48.0, 1.0)];
    QtyPush(top, Level(47.0, 600.0));
    assert [] + [Level(50.0, 1.0)] == [Level(50.0, 1.0)] && [] + [Level(51.0, 1.0)] == asks;
    assert [Level(50.0, 1.0)] + [Level(49.0, 1.0)] == [Level(50.0, 1.0), Level(49.0, 1.0)];
    assert [Level(50.0, 1.0), Level(49.0, 1.0)] + [Level(48.0, 1.0)] == top;
    assert top + [Level(47.0, 600.0)] == bids && bids[..3] == top;
  }

  lemma QtyPush(levels: seq<Level>, l: Level)
    ensures TotalQty(levels + [l]) == TotalQty(levels) + l.qty
  {
    assert (levels + [l])[..|levels|] == levels;
  }
}
