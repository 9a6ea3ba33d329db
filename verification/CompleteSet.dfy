/** The complete-set arbitrage: buy (or sell) one share of every outcome when the sum of the
    prices, after fees, leaves more than a minimum edge. */
module CompleteSet {
  import opened Trading
  import opened RealFacts
  import opened Markets

  datatype Config = Config(fallbackFeeRate: real, minEdgeRate: real)

  /** One outcome's best price and the size resting there. */
  datatype TopOfBook = TopOfBook(token: string, price: real, size: real)

  function Power(x: real, n: nat): (r: real)
    ensures 0.0 <= x <= 1.0 ==> 0.0 <= r <= 1.0
  {
    if n == 0 then 1.0
    else
      var r := Power(x, n - 1);
      UnitProduct(x, r);
      x * r
  }

  lemma UnitProduct(x: real, y: real)
    ensures 0.0 <= x <= 1.0 && 0.0 <= y <= 1.0 ==> 0.0 <= x * y <= 1.0
  {
    if 0.0 <= x <= 1.0 && 0.0 <= y <= 1.0 {
      assert x * (1.0 - y) >= 0.0;
    }
  }

  /** Powers multiply, in the exponent and in the base. */
  lemma {:induction false} PowerLaws(x: real, y: real, xy: real, n: nat)
    requires xy == x * y
    ensures Power(x, 0) == 1.0 && Power(x, n + 1) == x * Power(x, n)
    ensures Power(xy, n) == Power(x, n) * Power(y, n)
  {
    hide Power;
    OneFactor(x, n + 1);
    OneFactor(x, n);
    OneFactor(y, n);
    OneFactor(xy, n);
    if n > 0 {
      PowerLaws(x, y, xy, n - 1);
      FourFactors(x, y, Power(x, n - 1), Power(y, n - 1), xy, Power(xy, n - 1));
    }
  }

  lemma OneFactor(x: real, n: nat)
    ensures Power(x, 0) == 1.0
    ensures n > 0 ==> Power(x, n) == x * Power(x, n - 1)
  {
  }

  lemma FourFactors(x: real, y: real, p: real, q: real, xy: real, pq: real)
    requires xy == x * y && pq == p * q
    ensures xy * pq == (x * p) * (y * q)
  {
    calc {
      xy * pq;
      (x * y) * (p * q);
      x * (y * (p * q));
      x * (p * (y * q));
      (x * p) * (y * q);
    }
  }

  function FeePerShare(config: Config, price: real, market: Market): real {
    if market.feeRate.Some? then
      var exponent := if market.feeExponent.Some? then market.feeExponent.value else 1;
      market.feeRate.value * Power(price, exponent) * Power(1.0 - price, exponent)
    else
      price * config.fallbackFeeRate
  }

  /** A scheduled fee is the rate times a power of price times its complement, the first power when no
      exponent is given. */
  lemma ScheduledFee(config: Config, price: real, market: Market, e: nat)
    requires market.feeRate.Some? && (market.feeExponent == Some(e) || (market.feeExponent.None? && e == 1))
    ensures FeePerShare(config, price, market) == market.feeRate.value * Power(price * (1.0 - price), e)
    ensures e == 1 ==> FeePerShare(config, price, market) == market.feeRate.value * (price * (1.0 - price))
  {
    hide Power;
    var both := price * (1.0 - price);
    PowerLaws(price, 1.0 - price, both, e);
    Regrouped(market.feeRate.value, Power(price, e), Power(1.0 - price, e));
    PowerLaws(both, 1.0, both, 0);
    assert FeePerShare(config, price, market) == market.feeRate.value * Power(both, e);
  }

  lemma Regrouped(x: real, y: real, z: real)
    ensures x * y * z == x * (y * z)
  {
  }

  /** Without a schedule it is the fallback rate on the price. */
  lemma UnscheduledFee(config: Config, price: real, market: Market)
    requires market.feeRate.None?
    ensures FeePerShare(config, price, market) == config.fallbackFeeRate * price
  {
  }

  /** The same fee as a fraction of notional. */
  function FeeRateFor(config: Config, price: real, market: Market): real {
    if price != 0.0 then FeePerShare(config, price, market) / price else 0.0
  }

  lemma FeeIsNotional(config: Config, price: real, market: Market)
    requires price != 0.0
    ensures price * FeeRateFor(config, price, market) == FeePerShare(config, price, market)
  {
    hide FeePerShare;
  }

  lemma FeeNonNegative(config: Config, price: real, market: Market)
    requires 0.0 < price <= 1.0 && config.fallbackFeeRate >= 0.0
    requires market.feeRate.Some? ==> market.feeRate.value >= 0.0
    ensures FeePerShare(config, price, market) >= 0.0
  {
    if market.feeRate.Some? {
      var e := if market.feeExponent.Some? then market.feeExponent.value else 1;
      var p, r := Power(price, e), Power(1.0 - price, e);
      hide Power;
      assert market.feeRate.value * p >= 0.0;
    }
  }

  // ---- evaluation ------------------------------------------------------------------

  function QuotedPrices(quotes: seq<TopOfBook>): seq<real> {
    seq(|quotes|, i requires 0 <= i < |quotes| => quotes[i].price)
  }

  function QuotedFees(config: Config, quotes: seq<TopOfBook>, market: Market): seq<real> {
    seq(|quotes|, i requires 0 <= i < |quotes| => FeePerShare(config, quotes[i].price, market))
  }

  function Thinnest(quotes: seq<TopOfBook>): (size: real)
    requires quotes != []
    ensures exists q | q in quotes :: size == q.size
    ensures forall q | q in quotes :: size <= q.size
  {
    var last := quotes[|quotes| - 1];
    if |quotes| == 1 then last.size
    else
      assert quotes == quotes[..|quotes| - 1] + [last];
      Min(Thinnest(quotes[..|quotes| - 1]), last.size)
  }

  lemma ConfidenceRange(edge: real, full: real)
    ensures full > 0.0 ==> edge / full * full == edge
    ensures full > 0.0 && edge >= full ==> edge / full >= 1.0
    ensures full > 0.0 && 0.0 <= edge <= full ==> 0.0 <= edge / full <= 1.0
    ensures full > 0.0 && edge <= 0.0 ==> edge / full <= 0.0
  {
    if full > 0.0 {
      QuotientSign(edge, full);
      QuotientIs(full, full, 1.0);
      if edge >= full { QuotientMonotone(full, edge, full); }
      if edge <= full { QuotientMonotone(edge, full, full); }
    }
  }

  /** None without an edge, full from four times the minimum edge on, and in proportion between. */
  function Confidence(config: Config, edge: real): (c: real)
    ensures 0.0 <= c <= 1.0
    ensures edge <= 0.0 ==> c == 0.0
    ensures edge > 0.0 && edge >= 4.0 * config.minEdgeRate ==> c == 1.0
    ensures 0.0 <= edge <= 4.0 * config.minEdgeRate ==> c * (4.0 * config.minEdgeRate) == edge
  {
    ConfidenceRange(edge, 4.0 * config.minEdgeRate);
    if config.minEdgeRate <= 0.0 then (if edge > 0.0 then 1.0 else 0.0)
    else Max(0.0, Min(1.0, edge / (4.0 * config.minEdgeRate)))
  }

  function LegsOf(quotes: seq<TopOfBook>, side: Side): seq<Leg> {
    seq(|quotes|, i requires 0 <= i < |quotes| => Leg(quotes[i].token, side, quotes[i].price))
  }

  function FeeCost(config: Config, quotes: seq<TopOfBook>, market: Market): real {
    Sum(QuotedFees(config, quotes, market))
  }

  /** What one set earns after fees: the guaranteed dollar less its cost, or its proceeds
      less the dollar. */
  function EdgeOf(config: Config, market: Market, quotes: seq<TopOfBook>, side: Side): real {
    var total := Sum(QuotedPrices(quotes));
    (if side.Buy? then 1.0 - total else total - 1.0) - FeeCost(config, quotes, market)
  }

  function CheckCompleteSet(config: Config, market: Market, quotes: seq<TopOfBook>, side: Side): Option<Signal>
    requires quotes != []
  {
    var edge := EdgeOf(config, market, quotes, side);
    if edge <= config.minEdgeRate then None
    else Some(Signal(edge, Confidence(config, edge), side, None,
                     FeeCost(config, quotes, market), Some(Thinnest(quotes)), LegsOf(quotes, side)))
  }

  ghost predicate TwoSided(book: OrderBook) {
    BestBid(book.bids).Some? && BestAsk(book.asks).Some?
  }

  ghost predicate Quotable(market: Market, books: map<string, OrderBook>) {
    |market.tokenIds| >= 2 && forall t | t in market.tokenIds :: t in books && TwoSided(books[t])
  }

  /** The tokens in order of first appearance. */
  function Unrepeated(tokens: seq<string>): (r: seq<string>)
    ensures forall t :: t in r <==> t in tokens
    ensures |tokens| > 0 ==> |r| > 0
  {
    if tokens == [] then []
    else
      var last, r := tokens[|tokens| - 1], Unrepeated(tokens[..|tokens| - 1]);
      assert tokens == tokens[..|tokens| - 1] + [last];
      if last in r then r else r + [last]
  }

  lemma {:induction false} UnrepeatedDistinct(tokens: seq<string>)
    ensures Distinct(Unrepeated(tokens))
    ensures Distinct(tokens) ==> Unrepeated(tokens) == tokens
  {
    if tokens != [] {
      UnrepeatedDistinct(tokens[..|tokens| - 1]);
      assert tokens == tokens[..|tokens| - 1] + [tokens[|tokens| - 1]];
    }
  }

  function AskQuote(book: OrderBook, token: string): TopOfBook
    requires BestAsk(book.asks).Some?
  {
    var best := BestAsk(book.asks).value;
    TopOfBook(token, best.price, best.size)
  }

  function BidQuote(book: OrderBook, token: string): TopOfBook
    requires BestBid(book.bids).Some?
  {
    var best := BestBid(book.bids).value;
    TopOfBook(token, best.price, best.size)
  }

  ghost function AskQuotes(tokens: seq<string>, books: map<string, OrderBook>): (quotes: seq<TopOfBook>)
    requires forall t | t in tokens :: t in books && TwoSided(books[t])
    ensures |quotes| == |tokens|
  {
    seq(|tokens|, i requires 0 <= i < |tokens| =>
      assert tokens[i] in tokens && TwoSided(books[tokens[i]]); AskQuote(books[tokens[i]], tokens[i]))
  }

  ghost function BidQuotes(tokens: seq<string>, books: map<string, OrderBook>): (quotes: seq<TopOfBook>)
    requires forall t | t in tokens :: t in books && TwoSided(books[t])
    ensures |quotes| == |tokens|
  {
    seq(|tokens|, i requires 0 <= i < |tokens| =>
      assert tokens[i] in tokens && TwoSided(books[tokens[i]]); BidQuote(books[tokens[i]], tokens[i]))
  }

  /** A BUY set if buying pays, otherwise a SELL set if selling pays. */
  ghost function Evaluated(config: Config, market: Market, books: map<string, OrderBook>): Option<Signal> {
    if !Quotable(market, books) then None
    else
      var tokens := Unrepeated(market.tokenIds);
      var buy := CheckCompleteSet(config, market, AskQuotes(tokens, books), Buy);
      if buy.Some? then buy else CheckCompleteSet(config, market, BidQuotes(tokens, books), Sell)
  }

  lemma NoTokens(books: map<string, OrderBook>)
    ensures Unrepeated([]) == [] && AskQuotes([], books) == [] && BidQuotes([], books) == []
  {
  }

  lemma OneMoreToken(tokens: seq<string>, token: string)
    ensures Unrepeated(tokens + [token])
         == if token in tokens then Unrepeated(tokens) else Unrepeated(tokens) + [token]
  {
    assert (tokens + [token])[..|tokens|] == tokens;
  }

  lemma OneMoreQuote(tokens: seq<string>, token: string, books: map<string, OrderBook>)
    requires forall t | t in tokens + [token] :: t in books && TwoSided(books[t])
    ensures AskQuotes(tokens + [token], books) == AskQuotes(tokens, books) + [AskQuote(books[token], token)]
    ensures BidQuotes(tokens + [token], books) == BidQuotes(tokens, books) + [BidQuote(books[token], token)]
  {
  }

  method Evaluate(config: Config, market: Market, books: map<string, OrderBook>) returns (signal: Option<Signal>)
    ensures signal == Evaluated(config, market, books)
  {
    hide CheckCompleteSet, BestAsk, BestBid, Unrepeated, AskQuotes, BidQuotes;
    assert Unrepeated([]) == [] && AskQuotes([], books) == [] && BidQuotes([], books) == [] by {
      NoTokens(books);
    }
    if |market.tokenIds| < 2 {
      return None;
    }
    if exists t | t in market.tokenIds :: t !in books {
      return None;
    }
    ghost var all := market.tokenIds;
    var tokens: seq<string>, asks: seq<TopOfBook>, bids: seq<TopOfBook> := [], [], [];
    for i := 0 to |market.tokenIds|
      invariant forall t | t in all[..i] :: t in books && TwoSided(books[t])
      invariant tokens == Unrepeated(all[..i])
      invariant asks == AskQuotes(tokens, books) && bids == BidQuotes(tokens, books)
    {
      var token := market.tokenIds[i];
      assert token in all;
      var bestAsk, bestBid := BestAsk(books[token].asks), BestBid(books[token].bids);
      if bestAsk.None? || bestBid.None? {
        return None;
      }
      OneMoreToken(all[..i], token);
      assert all[..i + 1] == all[..i] + [token];
      if token !in tokens {
        OneMoreQuote(tokens, token, books);
        tokens := tokens + [token];
        asks := asks + [TopOfBook(token, bestAsk.value.price, bestAsk.value.size)];
        bids := bids + [TopOfBook(token, bestBid.value.price, bestBid.value.size)];
      }
    }
    assert all[..|all|] == all;
    signal := CheckCompleteSet(config, market, asks, Buy);
    if signal.None? {
      signal := CheckCompleteSet(config, market, bids, Sell);
    }
  }

  // ---- what a signal says --------------------------------------------------------------

  ghost function Quotes(market: Market, books: map<string, OrderBook>, side: Side): seq<TopOfBook>
    requires Quotable(market, books)
  {
    var tokens := Unrepeated(market.tokenIds);
    if side.Buy? then AskQuotes(tokens, books) else BidQuotes(tokens, books)
  }

  lemma FiredQuotable(config: Config, market: Market, books: map<string, OrderBook>)
    requires Evaluated(config, market, books).Some?
    ensures Quotable(market, books)
  {
  }

  /** A signal fires exactly when there are at least two outcomes, all with both sides in their
      books, and a set clears the minimum edge; buying is preferred when both sides do. */
  lemma FiresExactly(config: Config, market: Market, books: map<string, OrderBook>)
    ensures Evaluated(config, market, books).Some? <==>
      && Quotable(market, books)
      && exists side :: EdgeOf(config, market, Quotes(market, books, side), side) > config.minEdgeRate
    ensures Evaluated(config, market, books).Some? ==>
      && (Evaluated(config, market, books).value.side.Buy?
          <==> EdgeOf(config, market, Quotes(market, books, Buy), Buy) > config.minEdgeRate)
  {
    hide EdgeOf, BestAsk, BestBid, Unrepeated, FeeCost, Confidence, Thinnest, LegsOf;
    if Quotable(market, books) {
      var buy := EdgeOf(config, market, Quotes(market, books, Buy), Buy);
      var sell := EdgeOf(config, market, Quotes(market, books, Sell), Sell);
      assert Evaluated(config, market, books).Some? <==> buy > config.minEdgeRate || sell > config.minEdgeRate;
    }
  }

  /** Every fired signal is one leg per outcome, all on one side, each at the best price of
      its book. */
  lemma SignalLegs(config: Config, market: Market, books: map<string, OrderBook>)
    requires Evaluated(config, market, books).Some?
    ensures var s, tokens := Evaluated(config, market, books).value, Unrepeated(market.tokenIds);
      && s.token.None? && s.maxShares.Some?
      && |s.legs| == |tokens| > 0 && DistinctTokens(s.legs)
      && (forall i | 0 <= i < |s.legs| ::
            && s.legs[i].token == tokens[i] && s.legs[i].side == s.side
            && s.legs[i].price == if s.side.Buy? then BestAsk(books[tokens[i]].asks).value.price
                                  else BestBid(books[tokens[i]].bids).value.price)
  {
    hide EdgeOf, FeeCost, Confidence, BestAsk, BestBid, Unrepeated, Thinnest;
    UnrepeatedDistinct(market.tokenIds);
  }

  /** Its edge is what these prices and their fees leave of the guaranteed dollar, and exceeds
      the configured minimum. */
  lemma SignalEdge(config: Config, market: Market, books: map<string, OrderBook>)
    requires Evaluated(config, market, books).Some?
    ensures var s := Evaluated(config, market, books).value;
      && s.edge > config.minEdgeRate
      && s.edge == (if s.side.Buy? then 1.0 - Sum(Prices(s.legs)) else Sum(Prices(s.legs)) - 1.0) - s.feeCost
      && s.feeCost == Sum(LegFees(config, s.legs, market))
  {
    hide FeePerShare, Confidence, BestAsk, BestBid, Unrepeated, Thinnest;
    var s := Evaluated(config, market, books).value;
    var quotes := Quotes(market, books, s.side);
    assert Prices(s.legs) == QuotedPrices(quotes);
    assert LegFees(config, s.legs, market) == QuotedFees(config, quotes, market);
  }

  function LegFees(config: Config, legs: seq<Leg>, market: Market): seq<real> {
    seq(|legs|, i requires 0 <= i < |legs| => FeePerShare(config, legs[i].price, market))
  }

  /** The size limit is the thinnest top of book among the legs. */
  lemma DepthLimit(config: Config, market: Market, books: map<string, OrderBook>, token: string)
    requires Evaluated(config, market, books).Some? && token in market.tokenIds
    ensures var s := Evaluated(config, market, books).value;
      s.maxShares.value <= if s.side.Buy? then BestAsk(books[token].asks).value.size
                           else BestBid(books[token].bids).value.size
  {
    var s := Evaluated(config, market, books).value;
    var tokens, quotes := Unrepeated(market.tokenIds), Quotes(market, books, s.side);
    var i :| 0 <= i < |tokens| && tokens[i] == token;
    assert quotes[i] in quotes;
  }

  /** The limit is the size at the best price of some outcome, and the signal's confidence is its edge's. */
  lemma DepthAttained(config: Config, market: Market, books: map<string, OrderBook>)
    requires Evaluated(config, market, books).Some?
    ensures var s := Evaluated(config, market, books).value;
      && s.confidence == Confidence(config, s.edge)
      && exists token | token in market.tokenIds ::
           s.maxShares.value == if s.side.Buy? then BestAsk(books[token].asks).value.size
                                else BestBid(books[token].bids).value.size
  {
    hide EdgeOf, FeeCost, Confidence, BestAsk, BestBid, Unrepeated, LegsOf, Thinnest;
    var s := Evaluated(config, market, books).value;
    var tokens, quotes := Unrepeated(market.tokenIds), Quotes(market, books, s.side);
    var q :| q in quotes && s.maxShares.value == q.size;
    var i :| 0 <= i < |quotes| && quotes[i] == q;
    assert tokens[i] in market.tokenIds;
  }

  // ---- some books fire ------------------------------------------------------------------------

  function OneLevelBook(token: string, bid: real, ask: real): OrderBook {
    OrderBook(token, "m", [PriceLevel(bid, 10.0)], [PriceLevel(ask, 10.0)], 0.0)
  }

  lemma OneLevelBest(token: string, bid: real, ask: real)
    ensures BestBid(OneLevelBook(token, bid, ask).bids) == Some(PriceLevel(bid, 10.0))
    ensures BestAsk(OneLevelBook(token, bid, ask).asks) == Some(PriceLevel(ask, 10.0))
  {
    assert [PriceLevel(bid, 10.0)][..0] == [] && [PriceLevel(ask, 10.0)][..0] == [];
  }

  const TWO_OUTCOMES := Market("m", false, [], ["no", "yes"], None, None)
  const CHEAP_BOOKS := map["no" := OneLevelBook("no", 0.3, 0.4), "yes" := OneLevelBook("yes", 0.4, 0.5)]

  lemma CheapQuotes()
    ensures Quotable(TWO_OUTCOMES, CHEAP_BOOKS)
    ensures Quotes(TWO_OUTCOMES, CHEAP_BOOKS, Buy) == [TopOfBook("no", 0.4, 10.0), TopOfBook("yes", 0.5, 10.0)]
  {
    hide BestAsk, BestBid, Unrepeated;
    var tokens := TWO_OUTCOMES.tokenIds;
    OneLevelBest("no", 0.3, 0.4);
    OneLevelBest("yes", 0.4, 0.5);
    assert |"no"| == 2 && |"yes"| == 3;
    assert Distinct(tokens);
    UnrepeatedDistinct(tokens);
    assert tokens[0] == "no" && tokens[1] == "yes";
    assert Quotable(TWO_OUTCOMES, CHEAP_BOOKS);
  }

  lemma CheapEdge()
    ensures EdgeOf(Config(0.02, 0.001), TWO_OUTCOMES, [TopOfBook("no", 0.4, 10.0), TopOfBook("yes", 0.5, 10.0)],
                   Buy) == 0.082
  {
    var quotes := [TopOfBook("no", 0.4, 10.0), TopOfBook("yes", 0.5, 10.0)];
    var prices, fees := QuotedPrices(quotes), QuotedFees(Config(0.02, 0.001), quotes, TWO_OUTCOMES);
    assert prices == [0.4, 0.5] && fees == [0.008, 0.01];
    hide Sum;
    SumOfTwo(0.4, 0.5);
    SumOfTwo(0.008, 0.01);
  }

  /** Two outcomes asked at 40 and 50 cents: buying both leaves 10 cents, less a fee of 2%. */
  lemma CheapSetFires()
    ensures var signal := Evaluated(Config(0.02, 0.001), TWO_OUTCOMES, CHEAP_BOOKS);
      signal.Some? && signal.value.side.Buy? && signal.value.edge == 0.082
  {
    CheapQuotes();
    CheapEdge();
    hide EdgeOf, Unrepeated, BestAsk, BestBid, Confidence, FeeCost, Thinnest, LegsOf, AskQuotes, BidQuotes;
  }

  lemma SumOfTwo(x: real, y: real)
    ensures Sum([x, y]) == x + y
  {
    assert [x, y][..1] == [x] && [x][..0] == [];
    assert Sum([x, y]) == Sum([x, y][..1]) + y;
  }
}
