/** Markets, order books and signals as they pass between the layers. */
module Markets {
  import opened Trading

  datatype PriceLevel = PriceLevel(price: real, size: real)

  /** `receivedAt` is the time the snapshot arrived. */
  datatype OrderBook = OrderBook(token: string, conditionId: string, bids: seq<PriceLevel>,
                                 asks: seq<PriceLevel>, receivedAt: real)

  datatype Market = Market(conditionId: string, closed: bool, outcomePrices: seq<real>, tokenIds: seq<string>,
                           feeRate: Option<real>, feeExponent: Option<nat>)

  /** A recorded book together with the market of its token. */
  datatype ReplayEvent = ReplayEvent(book: OrderBook, market: Market)

  /** The cheapest ask, the first one among equals. */
  function BestAsk(asks: seq<PriceLevel>): (best: Option<PriceLevel>)
    ensures best.None? <==> asks == []
    ensures best.Some? ==> best.value in asks && forall l | l in asks :: best.value.price <= l.price
  {
    if asks == [] then None
    else
      var last, sofar := asks[|asks| - 1], BestAsk(asks[..|asks| - 1]);
      assert asks == asks[..|asks| - 1] + [last];
      if sofar.Some? && sofar.value.price <= last.price then sofar else Some(last)
  }

  /** The dearest bid, the first one among equals. */
  function BestBid(bids: seq<PriceLevel>): (best: Option<PriceLevel>)
    ensures best.None? <==> bids == []
    ensures best.Some? ==> best.value in bids && forall l | l in bids :: l.price <= best.value.price
  {
    if bids == [] then None
    else
      var last, sofar := bids[|bids| - 1], BestBid(bids[..|bids| - 1]);
      assert bids == bids[..|bids| - 1] + [last];
      if sofar.Some? && last.price <= sofar.value.price then sofar else Some(last)
  }

  datatype Leg = Leg(token: string, side: Side, price: real)

  /** A single-token signal names its token and has no legs; a basket signal has legs, one per
      outcome, and no token. */
  datatype Signal = Signal(edge: real, confidence: real, side: Side, token: Option<string>,
                           feeCost: real, maxShares: Option<real>, legs: seq<Leg>)

  /** A market maker's resting order on one side. */
  datatype Quote = Quote(price: real, size: real)

  datatype QuotePair = QuotePair(token: string, bid: Option<Quote>, ask: Option<Quote>)

  /** The price of an offer that no other offer betters. */
  ghost predicate BestOffer(book: OrderBook, side: Side, price: real) {
    if side.Buy? then (exists l | l in book.asks :: l.price == price) && forall l | l in book.asks :: price <= l.price
    else (exists l | l in book.bids :: l.price == price) && forall l | l in book.bids :: l.price <= price
  }

  /** What an order on this side would trade at: buying pays the ask, selling hits the bid. */
  function TransactingPrice(book: OrderBook, side: Side): (price: Option<real>)
    ensures price.None? <==> if side.Buy? then book.asks == [] else book.bids == []
    ensures price.Some? ==> BestOffer(book, side, price.value)
  {
    var best := if side.Buy? then BestAsk(book.asks) else BestBid(book.bids);
    if best.Some? then Some(best.value.price) else None
  }

  /** No earlier level has this one's price. */
  ghost predicate FirstOfPrice(levels: seq<PriceLevel>, i: nat)
    requires i < |levels|
  {
    forall j | 0 <= j < i :: levels[j].price != levels[i].price
  }

  /** The best level, and with it the size offered there, is the first one listed at its price. */
  lemma {:induction false} FirstAmongEquals(levels: seq<PriceLevel>, i: nat)
    requires i < |levels| && FirstOfPrice(levels, i)
    ensures levels[i].price == BestAsk(levels).value.price ==> BestAsk(levels).value == levels[i]
    ensures levels[i].price == BestBid(levels).value.price ==> BestBid(levels).value == levels[i]
  {
    var n := |levels| - 1;
    if i < n {
      FirstAmongEquals(levels[..n], i);
      assert levels[..n][i] in levels[..n];
    } else {
      assert forall l | l in levels[..n] :: exists j | 0 <= j < n :: levels[j] == l;
    }
  }

  function Prices(legs: seq<Leg>): seq<real> {
    seq(|legs|, i requires 0 <= i < |legs| => legs[i].price)
  }

  ghost predicate Distinct<T>(xs: seq<T>) {
    forall i, j | 0 <= i < j < |xs| :: xs[i] != xs[j]
  }

  ghost predicate DistinctTokens(legs: seq<Leg>) {
    forall i, j | 0 <= i < j < |legs| :: legs[i].token != legs[j].token
  }
}
