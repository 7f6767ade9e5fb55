/** Selection of a trading candidate (polymarket/clob_readiness.py). The discovered markets, the
    clock and the probe results are inputs. */
module ClobSelection {
  import opened Wrappers
  import opened StableSort
  import opened ProbeCaching

  // ----- markets -----

  /** What an outcome label says after trimming and lower-casing. */
  datatype Label = YesLabel | NoLabel | OtherLabel | NotText

  datatype TokenId = Token(id: string) | NotAToken

  /** A field that should be a list, possibly encoded as a JSON string. */
  datatype ListField<T> = Missing | BadJson | NotAList | Items(items: seq<T>)

  datatype EndDate = NoDate | BadDate | EndsAt(seconds: real)

  datatype Market = Market(
    id: string, orderBook: bool, accepting: bool, closed: bool, restricted: bool, endDate: EndDate,
    liquidity: real, volume: real, outcomes: ListField<Label>, tokens: ListField<TokenId>)

  datatype Failure =
    | GammaParseError | MissingTokenIds | UnsupportedOutcomes | LengthMismatch | BadTokenId
    | OrderbookDisabled | NotAccepting | FilteredOut | Restricted | NoEndDate | ExpiringSoon | BadDateFormat
    | NoReadyCandidates | Exhausted

  const MIN_HOURS_TO_EXPIRY: real := 24.0

  /** `None` when the market passes every filter. */
  function Ineligible(m: Market, now: real): Option<Failure> {
    if !m.orderBook then Some(OrderbookDisabled)
    else if !m.accepting then Some(NotAccepting)
    else if m.closed then Some(FilteredOut)
    else if m.restricted then Some(Restricted)
    else
      match m.endDate
      case NoDate => Some(NoEndDate)
      case BadDate => Some(BadDateFormat)
      case EndsAt(t) => if t < now + MIN_HOURS_TO_EXPIRY * 3600.0 then Some(ExpiringSoon) else None
  }

  /** A market is eligible exactly when it has an order book, accepts orders, is neither closed nor
      restricted, and ends a day from now or later. */
  lemma EligibleIff(m: Market, now: real)
    ensures Ineligible(m, now) == None <==>
            m.orderBook && m.accepting && !m.closed && !m.restricted && m.endDate.EndsAt? && m.endDate.seconds >= now + 86400.0
    ensures Ineligible(m, now) == Some(OrderbookDisabled) <==> !m.orderBook
    ensures Ineligible(m, now) == Some(NotAccepting) <==> m.orderBook && !m.accepting
    ensures Ineligible(m, now) == Some(FilteredOut) <==> m.orderBook && m.accepting && m.closed
    ensures Ineligible(m, now) == Some(Restricted) <==> m.orderBook && m.accepting && !m.closed && m.restricted
    ensures Ineligible(m, now) == Some(ExpiringSoon) <==>
            m.orderBook && m.accepting && !m.closed && !m.restricted && m.endDate.EndsAt? && m.endDate.seconds < now + 86400.0
    ensures Ineligible(m, now) == Some(NoEndDate) <==>
            m.orderBook && m.accepting && !m.closed && !m.restricted && m.endDate.NoDate?
    ensures Ineligible(m, now) == Some(BadDateFormat) <==>
            m.orderBook && m.accepting && !m.closed && !m.restricted && m.endDate.BadDate?
  {
  }

  // ----- tokens -----

  /** The token of the outcome labelled `wanted`, when the labels are one YES and one NO. */
  function TokenOf(labels: seq<Label>, tokens: seq<TokenId>, wanted: Label): TokenId
    requires |labels| == |tokens| == 2
  {
    if labels[0] == wanted then tokens[0] else tokens[1]
  }

  predicate YesAndNo(labels: seq<Label>) {
    && |labels| == 2
    && ((labels[0] == YesLabel && labels[1] == NoLabel) || (labels[0] == NoLabel && labels[1] == YesLabel))
  }

  /** The YES and NO token ids, by label and not by position. */
  function ParsedTokens(m: Market): Result<(string, string), Failure> {
    if m.outcomes.BadJson? || m.tokens.BadJson? then Err(GammaParseError)
    else if !m.outcomes.Items? then Err(GammaParseError)
    else if m.tokens.Missing? then Err(MissingTokenIds)
    else if !m.tokens.Items? then Err(GammaParseError)
    else
      var labels, tokens := m.outcomes.items, m.tokens.items;
      if labels == [] then Err(UnsupportedOutcomes)
      else if tokens == [] then Err(MissingTokenIds)
      else if |labels| != |tokens| then Err(LengthMismatch)
      else if |labels| != 2 || !YesAndNo(labels) then Err(UnsupportedOutcomes)
      else
        var yes, no := TokenOf(labels, tokens, YesLabel), TokenOf(labels, tokens, NoLabel);
        if yes.Token? && no.Token? then Ok((yes.id, no.id)) else Err(BadTokenId)
  }

  /** `yes` stands where the label is YES and `no` where it is NO, in two lists of two. */
  ghost predicate TokensAt(m: Market, yes: string, no: string) {
    && m.outcomes.Items? && m.tokens.Items? && |m.outcomes.items| == |m.tokens.items| == 2
    && exists i, j :: 0 <= i < 2 && 0 <= j < 2
                      && m.outcomes.items[i] == YesLabel && m.outcomes.items[j] == NoLabel
                      && m.tokens.items[i] == Token(yes) && m.tokens.items[j] == Token(no)
  }

  /** The token ids go by the labels, and are found exactly when both are there. */
  lemma TokensIff(m: Market, yes: string, no: string)
    ensures ParsedTokens(m) == Ok((yes, no)) <==> TokensAt(m, yes, no)
  {
    if m.outcomes.Items? && m.tokens.Items? && |m.outcomes.items| == |m.tokens.items| == 2 {
      var labels, tokens := m.outcomes.items, m.tokens.items;
      if labels[0] == YesLabel && labels[1] == NoLabel && tokens[0] == Token(yes) && tokens[1] == Token(no) {
        assert TokensAt(m, yes, no);
      }
      if labels[1] == YesLabel && labels[0] == NoLabel && tokens[1] == Token(yes) && tokens[0] == Token(no) {
        assert TokensAt(m, yes, no);
      }
    }
  }

  /** Why tokens are not found. */
  lemma TokenErrors(m: Market)
    ensures ParsedTokens(m) == Err(GammaParseError) <==>
            m.outcomes.BadJson? || m.tokens.BadJson? || !m.outcomes.Items? || m.tokens.NotAList?
    ensures ParsedTokens(m) == Err(MissingTokenIds) <==>
            m.outcomes.Items? && (m.tokens.Missing? || (m.tokens == Items([]) && m.outcomes.items != []))
    ensures ParsedTokens(m) == Err(LengthMismatch) <==>
            m.outcomes.Items? && m.tokens.Items? && m.outcomes.items != [] && m.tokens.items != []
            && |m.outcomes.items| != |m.tokens.items|
    ensures ParsedTokens(m) == Err(BadTokenId) <==>
            m.outcomes.Items? && m.tokens.Items? && |m.tokens.items| == 2
            && (m.outcomes.items == [YesLabel, NoLabel] || m.outcomes.items == [NoLabel, YesLabel])
            && NotAToken in m.tokens.items
  {
    if m.outcomes.Items? && m.tokens.Items? && |m.outcomes.items| == |m.tokens.items| == 2 {
      var labels, tokens := m.outcomes.items, m.tokens.items;
      assert labels == [labels[0], labels[1]] && tokens == [tokens[0], tokens[1]];
    }
  }

  /** The parser with its loop over the labels. */
  method ParseTokens(m: Market) returns (r: Result<(string, string), Failure>)
    ensures r == ParsedTokens(m)
    ensures forall yes, no :: r == Ok((yes, no)) <==> TokensAt(m, yes, no)
  {
    forall yes, no ensures ParsedTokens(m) == Ok((yes, no)) <==> TokensAt(m, yes, no) {
      TokensIff(m, yes, no);
    }
    if m.outcomes.BadJson? || m.tokens.BadJson? || !m.outcomes.Items? {
      return Err(GammaParseError);
    }
    if m.tokens.Missing? {
      return Err(MissingTokenIds);
    }
    if !m.tokens.Items? {
      return Err(GammaParseError);
    }
    var labels, tokens := m.outcomes.items, m.tokens.items;
    if labels == [] {
      return Err(UnsupportedOutcomes);
    }
    if tokens == [] {
      return Err(MissingTokenIds);
    }
    if |labels| != |tokens| {
      return Err(LengthMismatch);
    }
    if |labels| != 2 {
      return Err(UnsupportedOutcomes);
    }
    var yesIdx, noIdx := -1, -1;
    for i := 0 to |labels|
      invariant -1 <= yesIdx < i && -1 <= noIdx < i
      invariant forall k :: 0 <= k < i ==> labels[k] != NotText
      invariant yesIdx == -1 <==> forall k :: 0 <= k < i ==> labels[k] != YesLabel
      invariant noIdx == -1 <==> forall k :: 0 <= k < i ==> labels[k] != NoLabel
      invariant yesIdx >= 0 ==> labels[yesIdx] == YesLabel
      invariant noIdx >= 0 ==> labels[noIdx] == NoLabel
    {
      match labels[i] {
        case NotText => return Err(UnsupportedOutcomes);
        case YesLabel => yesIdx := i;
        case NoLabel => noIdx := i;
        case OtherLabel =>
      }
    }
    if yesIdx == -1 || noIdx == -1 {
      return Err(UnsupportedOutcomes);
    }
    assert YesAndNo(labels);
    var yes, no := tokens[yesIdx], tokens[noIdx];
    if !yes.Token? || !no.Token? {
      return Err(BadTokenId);
    }
    return Ok((yes.id, no.id));
  }

  function Reversed<T>(f: ListField<T>): ListField<T> {
    if f.Items? && |f.items| == 2 then Items([f.items[1], f.items[0]]) else f
  }

  /** Listing the two outcomes the other way round changes nothing. */
  lemma TokensByLabel(m: Market)
    ensures ParsedTokens(m.(outcomes := Reversed(m.outcomes), tokens := Reversed(m.tokens))) == ParsedTokens(m)
  {
    if m.outcomes.Items? && |m.outcomes.items| == 2 {
      var labels := m.outcomes.items;
      assert labels == [labels[0], labels[1]];
    }
  }

  // ----- ranking -----

  /** Descending (liquidity, volume). */
  predicate Outranks(a: Market, b: Market) {
    a.liquidity > b.liquidity || (a.liquidity == b.liquidity && a.volume >= b.volume)
  }

  function RankOrder(): (Market, Market) -> bool {
    (a: Market, b: Market) => Outranks(a, b)
  }

  lemma RankIsPreorder()
    ensures Preorder(RankOrder())
  {
  }

  function Eligible(markets: seq<Market>, now: real): (r: seq<Market>)
    ensures |r| <= |markets|
  {
    if markets == [] then []
    else
      var n := |markets| - 1;
      Eligible(markets[..n], now) + (if Ineligible(markets[n], now).None? then [markets[n]] else [])
  }

  function Ranked(markets: seq<Market>, now: real): seq<Market> {
    Sort(Eligible(markets, now), RankOrder())
  }

  /** The ranking is the eligible markets in descending (liquidity, volume), equals in the order
      they were discovered, and no other sequence is that. */
  lemma RankingIs(markets: seq<Market>, now: real, other: seq<Market>)
    ensures Sorted(Ranked(markets, now), RankOrder())
    ensures forall i, j :: 0 <= i < j < |Ranked(markets, now)| ==>
              var a, b := Ranked(markets, now)[i], Ranked(markets, now)[j];
              a.liquidity > b.liquidity || (a.liquidity == b.liquidity && a.volume >= b.volume)
    ensures SameTies(Ranked(markets, now), Eligible(markets, now), RankOrder())
    ensures Sorted(other, RankOrder()) && SameTies(other, Eligible(markets, now), RankOrder())
            ==> other == Ranked(markets, now)
  {
    var eligible, ranked := Eligible(markets, now), Ranked(markets, now);
    RankIsPreorder();
    SortSorted(eligible, RankOrder());
    forall i, j | 0 <= i < j < |ranked|
      ensures ranked[i].liquidity > ranked[j].liquidity
              || (ranked[i].liquidity == ranked[j].liquidity && ranked[i].volume >= ranked[j].volume)
    {
      assert RankOrder()(ranked[i], ranked[j]);
    }
    forall x ensures Ties(ranked, x, RankOrder()) == Ties(eligible, x, RankOrder()) {
      SortStable(eligible, x, RankOrder());
    }
    if Sorted(other, RankOrder()) && SameTies(other, eligible, RankOrder()) {
      forall x ensures Ties(other, x, RankOrder()) == Ties(ranked, x, RankOrder()) {
        assert Ties(other, x, RankOrder()) == Ties(eligible, x, RankOrder());
      }
      StableSortUnique(other, ranked, RankOrder());
    }
  }

  // ----- selection -----

  /** The result of the `attempt`-th probe, should it be of this token. */
  type Prober = (nat, string) -> Probe

  datatype Selection = Selection(
    market: Option<string>, token: Option<string>, status: Status, failure: Option<Failure>,
    probesAttempted: nat, skipped: nat)

  /** The candidate's tokens parse, and its YES token probes READY. */
  predicate Works(m: Market, attempt: nat, probe: Prober) {
    ParsedTokens(m).Ok? && probe(attempt, ParsedTokens(m).value.0).status == Ready
  }

  /** A candidate works exactly when the token at its YES position probes READY. */
  lemma WorksIff(m: Market, attempt: nat, probe: Prober)
    ensures Works(m, attempt, probe) <==> exists yes, no :: TokensAt(m, yes, no) && probe(attempt, yes).status == Ready
  {
    if ParsedTokens(m).Ok? {
      TokensIff(m, ParsedTokens(m).value.0, ParsedTokens(m).value.1);
    }
    forall yes, no ensures ParsedTokens(m) == Ok((yes, no)) <==> TokensAt(m, yes, no) {
      TokensIff(m, yes, no);
    }
  }

  function Budget(maxProbes: int, candidates: nat): nat {
    if maxProbes <= 0 then 0 else if maxProbes < candidates then maxProbes else candidates
  }

  /** What the result has to be, given the ranking: the first candidate within the budget that
      works, or none when none does. */
  ghost predicate IsSelection(s: Selection, markets: seq<Market>, now: real, maxProbes: int, probe: Prober) {
    var ranked := Ranked(markets, now);
    && s.skipped + |ranked| == |markets|
    && s.probesAttempted <= Budget(maxProbes, |ranked|)
    && (forall k :: 0 <= k < s.probesAttempted - 1 ==> !Works(ranked[k], k, probe))
    && (s.market.Some? ==>
          var k := s.probesAttempted - 1;
          && 0 <= k && Works(ranked[k], k, probe)
          && s.market == Some(ranked[k].id) && s.token == Some(ParsedTokens(ranked[k]).value.0)
          && s.status == Ready && s.failure == None)
    && (s.market.None? ==>
          && s.probesAttempted == Budget(maxProbes, |ranked|)
          && (s.probesAttempted > 0 ==> !Works(ranked[s.probesAttempted - 1], s.probesAttempted - 1, probe))
          && s.token == None && s.status == NotReady
          && s.failure == Some(if markets == [] then Exhausted else if ranked == [] then FilteredOut else NoReadyCandidates))
  }

  /** A selected token is the YES token of the selected market, an eligible one that was discovered. */
  ghost predicate SelectsYes(s: Selection, markets: seq<Market>, now: real) {
    s.market.Some? ==>
      s.token.Some? && exists m, no :: TokensAt(m, s.token.value, no) && m in markets && s.market == Some(m.id)
                                       && Ineligible(m, now) == None
  }

  lemma SelectedIsYes(s: Selection, markets: seq<Market>, now: real, maxProbes: int, probe: Prober)
    requires IsSelection(s, markets, now, maxProbes, probe)
    ensures SelectsYes(s, markets, now)
  {
    if s.market.Some? {
      var m := Ranked(markets, now)[s.probesAttempted - 1];
      var (yes, no) := ParsedTokens(m).value;
      TokensIff(m, yes, no);
      RankedIn(markets, now, m);
    }
  }

  /** The loop over the discovered markets. */
  method Filter(markets: seq<Market>, now: real) returns (eligible: seq<Market>, skipped: nat)
    ensures eligible == Eligible(markets, now) && skipped + |eligible| == |markets|
  {
    eligible, skipped := [], 0;
    for i := 0 to |markets|
      invariant eligible == Eligible(markets[..i], now) && skipped + |eligible| == i
    {
      assert markets[..i + 1][..i] == markets[..i];
      if Ineligible(markets[i], now).None? {
        eligible := eligible + [markets[i]];
      } else {
        skipped := skipped + 1;
      }
    }
    assert markets[..|markets|] == markets;
  }

  method SelectBest(markets: seq<Market>, now: real, maxProbes: int, probe: Prober) returns (s: Selection)
    ensures IsSelection(s, markets, now, maxProbes, probe)
    ensures SelectsYes(s, markets, now) && s.probesAttempted <= (if maxProbes < 0 then 0 else maxProbes)
    ensures s.market.Some? ==>
              s.token.Some? && s.probesAttempted >= 1 && probe(s.probesAttempted - 1, s.token.value).status == Ready
  {
    var eligible, skipped := Filter(markets, now);
    if markets == [] {
      return Selection(None, None, NotReady, Some(Exhausted), 0, 0);
    }
    if eligible == [] {
      return Selection(None, None, NotReady, Some(FilteredOut), 0, skipped);
    }
    var ranked := Sort(eligible, RankOrder());
    var probesLeft, attempted: nat := maxProbes, 0;
    while attempted < |ranked| && probesLeft > 0
      invariant attempted <= Budget(maxProbes, |ranked|) && probesLeft == maxProbes - attempted
      invariant forall k :: 0 <= k < attempted ==> !Works(ranked[k], k, probe)
    {
      var m := ranked[attempted];
      probesLeft := probesLeft - 1;
      attempted := attempted + 1;
      var tokens := ParseTokens(m);
      if tokens.Ok? {
        var result := probe(attempted - 1, tokens.value.0);
        if result.status == Ready {
          s := Selection(Some(m.id), Some(tokens.value.0), Ready, None, attempted, skipped);
          SelectedIsYes(s, markets, now, maxProbes, probe);
          return;
        }
      }
    }
    return Selection(None, None, NotReady, Some(NoReadyCandidates), attempted, skipped);
  }

  /** The result is determined: there is only one selection for given inputs. */
  lemma SelectionUnique(s: Selection, t: Selection, markets: seq<Market>, now: real, maxProbes: int, probe: Prober)
    requires IsSelection(s, markets, now, maxProbes, probe) && IsSelection(t, markets, now, maxProbes, probe)
    ensures s == t
  {
  }

  lemma {:induction false} EligibleIn(markets: seq<Market>, now: real, m: Market)
    ensures m in Eligible(markets, now) <==> m in markets && Ineligible(m, now).None?
  {
    if markets != [] {
      var n := |markets| - 1;
      EligibleIn(markets[..n], now, m);
      assert m in markets <==> m in markets[..n] || m == markets[n];
    }
  }

  lemma RankedIn(markets: seq<Market>, now: real, m: Market)
    ensures m in Ranked(markets, now) <==> m in markets && Ineligible(m, now).None?
  {
    var eligible := Eligible(markets, now);
    EligibleIn(markets, now, m);
    SortMembers(eligible, RankOrder());
    assert m in eligible <==> m in multiset(eligible);
    assert m in Ranked(markets, now) <==> m in multiset(Ranked(markets, now));
  }

  lemma EarlierOutranks(markets: seq<Market>, now: real, i: nat, k: nat)
    requires i <= k < |Ranked(markets, now)|
    ensures Outranks(Ranked(markets, now)[i], Ranked(markets, now)[k])
  {
    RankIsPreorder();
    SortSorted(Eligible(markets, now), RankOrder());
    assert i < k ==> RankOrder()(Ranked(markets, now)[i], Ranked(markets, now)[k]);
  }

  /** Nothing better was left aside: every eligible market that strictly outranks the selected one
      was probed before it and failed; and the selected market is itself eligible. */
  lemma NothingBetterWorked(s: Selection, markets: seq<Market>, now: real, maxProbes: int, probe: Prober, m: Market)
    requires IsSelection(s, markets, now, maxProbes, probe) && s.market.Some?
    requires m in markets && Ineligible(m, now).None?
    ensures var ranked := Ranked(markets, now);
            var best := ranked[s.probesAttempted - 1];
            && best.id == s.market.value && best in markets && Ineligible(best, now).None?
            && (!Outranks(best, m) ==>
                  exists k :: 0 <= k < s.probesAttempted - 1 && ranked[k] == m && !Works(m, k, probe))
  {
    var ranked, last := Ranked(markets, now), s.probesAttempted - 1;
    RankedIn(markets, now, m);
    RankedIn(markets, now, ranked[last]);
    if !Outranks(ranked[last], m) {
      var k :| 0 <= k < |ranked| && ranked[k] == m;
      if last <= k {
        EarlierOutranks(markets, now, last, k);
      }
      assert !Works(ranked[k], k, probe);
    }
  }
}
